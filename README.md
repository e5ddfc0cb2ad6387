# Authorized research engines and the MICS device identifier, in Dafny

This project models three Python components and proves properties about them.

- **Authorized bridge enumeration**: `authorized-enumeration-engine.py`.
  - A compliance monitor gates every operation. The operation must run in the
    lab environment and must be in the set of authorized operations.
  - The monitor keeps an authorization log and an activity log.
  - An enumeration engine gathers bridge descriptors from a fixed set of
    allowed sources. It encrypts each descriptor's fingerprint and address,
    then appends the descriptors to its list of discovered bridges.
  - A CAPTCHA research framework has two gated analysis operations.
- **Defensive research framework**: `defensive-research-framework.py`.
  - Vulnerability research and security assessments are allowed only on a
    fixed set of lab targets, and only inside the lab.
  - The outcomes accumulate in two lists.
  - Several analyses derive from those lists: the risk level, the
    recommendations, the per-type vulnerability counts, the security gaps, the
    improvement opportunities and the final report.
- **MICS device identifier**: `mics_device_identification.py`, in-memory part
  only. MICS is the Medical Implant Communication Service.
  - MAC addresses are normalised.
  - The manufacturer is found from the MAC prefix.
  - Two classification rules give the device type and the security level.
  - A catalogue of device records keyed by address supports identify, add,
    update, get and filter.
  - A counting security report summarises the catalogue.

Modules:

- `Wrappers` (`wrappers.dfy`): `Option`, `Result` and `Outcome`. A Python
  exception is a `Failure`/`Fail` value. Every failing call is proved to leave
  the state it would have changed untouched.
- `Counting` (`counting.dfy`): the `if k not in d: d[k] = 0; d[k] += 1`
  counting idiom used by two of the components.
  - `Tally` is the dictionary that this loop builds over a list.
  - `MapSum` is the sum of a dictionary's values.
- `AuthorizedEnumeration` (`enumeration.dfy`).
- `DefensiveResearch` (`defensive.dfy`).
- `MacAddress` (`mac_address.dfy`): the address normal form.
- `DeviceIdentification` (`device_identification.dfy`).

How the Python is represented:

- Objects whose fields the Python updates in place are classes. The monitor,
  the engines, the research framework and the device identifier are classes
  with `seq`/`set`/`map` fields. Their methods state the whole new state.
- Records passed around by value are datatypes.
- The symmetric cipher is a `Cipher` value holding an encrypt function and a
  decrypt function. It is a foreign library, so the only assumption is that
  decryption inverts encryption. The engine's constructor requires this as a
  precondition and records it as the engine's `Valid()`.
- Clocks, `time.time()` and the identifiers built from them are parameters:
  `now` and `stamp`.
- The HTTP sources are parameters: `fromDirectories` and `fromResearch`.
- Python set iteration has no defined order. The model picks an element with
  `:|`, and results built that way are stated as multisets or as membership.
- Python dict order is kept explicitly in the device catalogue's
  `insertionOrder`. Every listing and the report follow that order.

## Model

Path prefixes:

- `authorized-enumeration-engine.py` and `defensive-research-framework.py` are
  under `bridge-resilience-research/src/core/`.
- The MICS files are under `ble_axis/software/`.

| member | source | states |
|---|---|---|
| AuthorizedEnumeration.GateFailure | bridge-resilience-research/src/core/authorized-enumeration-engine.py:69-75 | Outside the lab the answer is always a ComplianceError, checked before anything else. Inside the lab there is no error exactly when the operation is authorized; otherwise it is an UnauthorizedOperationError "Operation <op> not authorized". |
| AuthorizedEnumeration.CurrentUser | bridge-resilience-research/src/core/authorized-enumeration-engine.py:94-97 | The fixed identity RESEARCH_USER; the LogAuthorizationCheck and LogActivity rows state that every audit record carries it. |
| AuthorizedEnumeration.ComplianceMonitor.constructor | bridge-resilience-research/src/core/authorized-enumeration-engine.py:63-67 | Both logs start empty, the monitor is in the lab, and no operation is authorized. |
| AuthorizedEnumeration.ComplianceMonitor.VerifyAuthorization | bridge-resilience-research/src/core/authorized-enumeration-engine.py:69-79 | Passes iff in the lab and the operation is authorized. It fails with the matching error otherwise. Exactly one authorization record is appended on success, and none on failure. |
| AuthorizedEnumeration.ComplianceMonitor.LogAuthorizationCheck | bridge-resilience-research/src/core/authorized-enumeration-engine.py:81-92 | Appends one record: the operation, the level, the time, user RESEARCH_USER, the lab flag and the written authorization AUTHORIZED_RESEARCH_PROGRAM. |
| AuthorizedEnumeration.ComplianceMonitor.LogActivity | bridge-resilience-research/src/core/authorized-enumeration-engine.py:99-109 | Appends one activity record with user RESEARCH_USER and environment lab_only; nothing else changes. |
| AuthorizedEnumeration.ComplianceMonitor.Admit | bridge-resilience-research/src/core/authorized-enumeration-engine.py:127-137 | The verify-then-log prologue of each gated operation. On failure neither log changes. On success each log grows by exactly one record. |
| AuthorizedEnumeration.FreshMonitorRejects | bridge-resilience-research/src/core/authorized-enumeration-engine.py:63-75 | A newly built monitor rejects every operation at every level with UnauthorizedOperationError, because its authorized set is empty. |
| AuthorizedEnumeration.LabTestData | bridge-resilience-research/src/core/authorized-enumeration-engine.py:231-252 | The lab source yields one descriptor: port 443, transport obfs4, source lab_test_data, authorized. |
| AuthorizedEnumeration.DecryptEncryptFields | bridge-resilience-research/src/core/authorized-enumeration-engine.py:146-148 | Decrypting the encrypted fingerprint and address of a descriptor gives the original descriptor back. |
| AuthorizedEnumeration.AuthorizedBridgeDiscovery.constructor | bridge-resilience-research/src/core/authorized-enumeration-engine.py:114-123 | The allowed sources are exactly the three named sources, and the discovered list starts empty. |
| AuthorizedEnumeration.AuthorizedBridgeDiscovery.EncryptData | bridge-resilience-research/src/core/authorized-enumeration-engine.py:313-315 | Encryption under the engine's key; DecryptEncrypt states that DecryptData inverts it. |
| AuthorizedEnumeration.AuthorizedBridgeDiscovery.DecryptData | bridge-resilience-research/src/core/authorized-enumeration-engine.py:317-319 | Decryption under the engine's key, None for a token it rejects; DecryptEncrypt states the round trip. |
| AuthorizedEnumeration.AuthorizedBridgeDiscovery.DecryptEncrypt | bridge-resilience-research/src/core/authorized-enumeration-engine.py:313-319 | For an engine whose key round-trips (its `Valid()`, which the constructor establishes), `_decrypt_data(_encrypt_data(s)) == s` for every string. |
| AuthorizedEnumeration.AuthorizedBridgeDiscovery.AuthorizedEnumeration | bridge-resilience-research/src/core/authorized-enumeration-engine.py:159-175 | The result is, as a multiset, what each allowed and known source contributes, whatever the set's iteration order. Unknown names contribute nothing. |
| AuthorizedEnumeration.AuthorizedBridgeDiscovery.EnumeratePublicBridges | bridge-resilience-research/src/core/authorized-enumeration-engine.py:125-157 | Gated. On failure the logs and the discovered list are unchanged. On success each log grows by one record, and the result is the enumeration's descriptors, in order, with fingerprint and address encrypted. The discovered list grows by exactly that result. |
| AuthorizedEnumeration.AuthorizedBridgeDiscovery.AnalyzeBridgePatterns | bridge-resilience-research/src/core/authorized-enumeration-engine.py:283-311 | Gated like the enumeration, with the defensive_research scope. On success it returns four empty distributions. |
| AuthorizedEnumeration.CaptchaResearchFramework.constructor | bridge-resilience-research/src/core/authorized-enumeration-engine.py:324-327 | It holds the given monitor, authorizedOnly is on, and the test environment is lab_only. |
| AuthorizedEnumeration.CaptchaResearchFramework.AnalyzeCaptchaMechanisms | bridge-resilience-research/src/core/authorized-enumeration-engine.py:329-358 | With authorizedOnly off it fails with "Authorization required" before the monitor is consulted. Otherwise it is gated. On failure the logs are unchanged; on success it returns an empty analysis and each log grows by one record. |
| AuthorizedEnumeration.CaptchaResearchFramework.TestDefensiveMeasures | bridge-resilience-research/src/core/authorized-enumeration-engine.py:360-384 | Gated at level LAB_ONLY with scope defensive_testing. On failure the logs are unchanged; on success it returns empty results. |
| DefensiveResearch.ResearchVulnerabilityArea | bridge-resilience-research/src/core/defensive-research-framework.py:125-145 | A report exists exactly for the five research areas; it names the target and carries the discovery time. |
| DefensiveResearch.ResearchAuthVulnerabilities | bridge-resilience-research/src/core/defensive-research-framework.py:147-164 | The AUTH_ report: type authentication_weakness, severity medium, three recommendations; VulnerabilitySuiteShape states its type and severity. |
| DefensiveResearch.ResearchEncryptionVulnerabilities | bridge-resilience-research/src/core/defensive-research-framework.py:166-183 | The ENC_ report: type encryption_weakness, severity high; VulnerabilitySuiteShape states its type and severity. |
| DefensiveResearch.ResearchNetworkVulnerabilities | bridge-resilience-research/src/core/defensive-research-framework.py:185-202 | The NET_ report: type network_protocol_weakness, severity medium; VulnerabilitySuiteShape states its type and severity. |
| DefensiveResearch.ResearchAccessControlVulnerabilities | bridge-resilience-research/src/core/defensive-research-framework.py:204-221 | The ACL_ report: type access_control_weakness, severity high; VulnerabilitySuiteShape states its type and severity. |
| DefensiveResearch.ResearchSessionVulnerabilities | bridge-resilience-research/src/core/defensive-research-framework.py:223-240 | The SESS_ report: type session_management_weakness, severity medium; VulnerabilitySuiteShape states its type and severity. |
| DefensiveResearch.VulnerabilitySuite | bridge-resilience-research/src/core/defensive-research-framework.py:106-117 | The five reports of one research call, in the order of the research areas; ResearchAreasCovered ties it to the per-area loop and VulnerabilitySuiteShape states its contents. |
| DefensiveResearch.ResearchAreasCovered | bridge-resilience-research/src/core/defensive-research-framework.py:91-123 | Researching the k-th area yields the k-th report of the suite, so the suite is the per-area loop's output. |
| DefensiveResearch.VulnerabilitySuiteShape | bridge-resilience-research/src/core/defensive-research-framework.py:147-240 | Five reports on the target. Their types are authentication, encryption, network protocol, access control and session management, in that order. Their severities are medium, high, medium, high, medium. All are lab and authorized. |
| DefensiveResearch.AssessSecurityArea | bridge-resilience-research/src/core/defensive-research-framework.py:291-303 | The finding names its area, has risk level medium and carries three recommendations. |
| DefensiveResearch.ConductAssessmentFindings | bridge-resilience-research/src/core/defensive-research-framework.py:271-289 | One finding per assessment area, in the areas' order. |
| DefensiveResearch.CountRisk | bridge-resilience-research/src/core/defensive-research-framework.py:305-316 | The count of findings at a level is at most the number of findings. It is positive iff some finding has that level, and it equals the number of findings iff all do. |
| DefensiveResearch.CountRiskAppend | bridge-resilience-research/src/core/defensive-research-framework.py:305-316 | Counts add over concatenation. |
| DefensiveResearch.CalculateRiskLevel | bridge-resilience-research/src/core/defensive-research-framework.py:305-316 | "high" iff some finding is high. "medium" iff none is high and more than two are medium. "low" otherwise. |
| DefensiveResearch.RiskLevelIgnoresOtherFindings | bridge-resilience-research/src/core/defensive-research-framework.py:305-316 | Inserting a finding that is neither high nor medium anywhere leaves the risk level unchanged. |
| DefensiveResearch.AllMediumIsMedium | bridge-resilience-research/src/core/defensive-research-framework.py:305-316 | Three or more findings, all medium, give "medium". |
| DefensiveResearch.CollectedRecommendationsMembership | bridge-resilience-research/src/core/defensive-research-framework.py:318-327 | A string is collected iff some finding recommends it. |
| DefensiveResearch.GenerateRecommendations | bridge-resilience-research/src/core/defensive-research-framework.py:318-327 | The result has no duplicates. It contains exactly the recommendations of the findings, in the unspecified order of a set. |
| DefensiveResearch.FindingGaps | bridge-resilience-research/src/core/defensive-research-framework.py:366-374 | The gaps of one assessment's findings, in order; FindingGapsSound states what they are and how many. |
| DefensiveResearch.FindingGapsSound | bridge-resilience-research/src/core/defensive-research-framework.py:366-374 | One gap per high or medium finding, so the gap count equals the high count plus the medium count. Every gap names the target and is high or medium. |
| DefensiveResearch.SecurityGaps | bridge-resilience-research/src/core/defensive-research-framework.py:361-376 | The gaps of all assessments, assessment by assessment; SecurityGapsSound and SecurityGapsCount state their content and number. |
| DefensiveResearch.SecurityGapsSound | bridge-resilience-research/src/core/defensive-research-framework.py:361-376 | Every gap is high or medium and names the target of some assessment. |
| DefensiveResearch.SecurityGapsCount | bridge-resilience-research/src/core/defensive-research-framework.py:361-376 | The number of gaps equals the number of high or medium findings over all assessments. |
| DefensiveResearch.GenerateDefensiveRecommendations | bridge-resilience-research/src/core/defensive-research-framework.py:393-406 | Eight fixed recommendations. |
| DefensiveResearch.DefensiveResearchFramework.constructor | bridge-resilience-research/src/core/defensive-research-framework.py:68-79 | The authorized targets are the five lab targets. The scope is LAB_ONLY, the level is RESTRICTED, and both lists are empty. |
| DefensiveResearch.DefensiveResearchFramework.ResearchVulnerabilities | bridge-resilience-research/src/core/defensive-research-framework.py:91-123 | Fails with the lab error first, then with the "not authorized for research" error; it succeeds iff in the lab and the target is authorized. On failure nothing changes. On success the five-report suite is returned and appended. |
| DefensiveResearch.DefensiveResearchFramework.ConductSecurityAssessment | bridge-resilience-research/src/core/defensive-research-framework.py:242-269 | Same error order and messages, for assessment. On success it returns, dated now, the five findings of AssessSecurityArea for the five areas in order (all medium), risk level "medium", and duplicate-free recommendations that are exactly those of the findings. The assessment is appended once. |
| DefensiveResearch.DefensiveResearchFramework.AnalyzeVulnerabilityPatterns | bridge-resilience-research/src/core/defensive-research-framework.py:343-359 | The distribution is the per-type count. Every count is at least 1, and the counts sum to the number of reports. |
| DefensiveResearch.DefensiveResearchFramework.AnalyzeSecurityGaps | bridge-resilience-research/src/core/defensive-research-framework.py:361-376 | The nested loop yields the gap list, of length equal to the number of high or medium findings. |
| DefensiveResearch.DefensiveResearchFramework.AnalyzeImprovementOpportunities | bridge-resilience-research/src/core/defensive-research-framework.py:378-391 | One opportunity per report, in order, copying its target, type, application and recommendations. |
| DefensiveResearch.DefensiveResearchFramework.AnalyzeDefensivePatterns | bridge-resilience-research/src/core/defensive-research-framework.py:329-341 | Combines the per-type counts (the other pattern fields empty), the gaps, the opportunity of each report in order, and the eight recommendations. |
| DefensiveResearch.DefensiveResearchFramework.GenerateDefensiveReport | bridge-resilience-research/src/core/defensive-research-framework.py:408-445 | Dated now. The totals equal the two list lengths, the overall risk is the fixed "medium", and the key findings, summary recommendations and recommendation plan are empty. The distribution is the per-type count of the reports (other pattern fields empty) and sums to their number. It embeds the gaps, the lists and the defensive analysis (the per-type counts, the gaps, the opportunity of each report in order and the eight recommendations), and changes no state. |
| Counting.Bump | bridge-resilience-research/src/core/defensive-research-framework.py:355-357 | One counting step: the key is added if absent, its count goes up by one, and the other keys keep their counts. |
| Counting.Increment | bridge-resilience-research/src/core/defensive-research-framework.py:355-357 | The in-place statements of one counting step perform `Bump`. |
| Counting.Tally | bridge-resilience-research/src/core/defensive-research-framework.py:353-357 | The dictionary the counting loop builds, front to back; TallyCounts, TallySnoc and TallySum state its keys, counts and sum. |
| Counting.TallyCounts | bridge-resilience-research/src/core/defensive-research-framework.py:353-357 | The keys of a tally are the counted values, and each count is that value's multiplicity, so it is at least 1. |
| Counting.TallySnoc | bridge-resilience-research/src/core/defensive-research-framework.py:353-357 | Counting one more element is one more step. |
| Counting.MapSumBump | bridge-resilience-research/src/core/defensive-research-framework.py:355-357 | A step adds exactly 1 to the sum of the counts. |
| Counting.TallySum | bridge-resilience-research/src/core/defensive-research-framework.py:353-357 | The counts of a tally sum to the length of the counted list. |
| MacAddress.ChunksComprehension | ble_axis/software/mics_device_identification.py:361-362 | The grouping is `[mac[i:i+2] for i in range(0, len(mac), 2)]`: there are ceil(n/2) groups, and group k is `mac[2k:2k+2]`. |
| MacAddress.ChunkLengths | ble_axis/software/mics_device_identification.py:361-362 | Every group but the last has two characters; the last has one or two. |
| MacAddress.StripSeparators | ble_axis/software/mics_device_identification.py:359 | `re.sub(r'[:\-\.]', '', s)`; StripSeparatorsChars and StripSeparatorsAppend state what it keeps. |
| MacAddress.Upper | ble_axis/software/mics_device_identification.py:359 | `.upper()` position by position: same length, each lower-case ASCII letter raised and every other character kept. |
| MacAddress.Chunks | ble_axis/software/mics_device_identification.py:362 | The two-character groups; ChunksComprehension and ChunkLengths state them. |
| MacAddress.JoinColon | ble_axis/software/mics_device_identification.py:362 | `':'.join(parts)`; GroupedContent and GroupedColons state the joined form. |
| MacAddress.NormalizeMacAddress | ble_axis/software/mics_device_identification.py:356-362 | The normal form; NormalizeMacAddressShape, NormalizeIdempotent, SeparatorStyleIrrelevant and SeparatorChoiceIrrelevant state its properties. |
| MacAddress.StripSeparatorsChars | ble_axis/software/mics_device_identification.py:358-359 | After stripping no separator remains, every non-separator is kept, and a separator-free string is unchanged. |
| MacAddress.GroupedContent | ble_axis/software/mics_device_identification.py:356-362 | Removing the colons of the grouped form gives back the separator-free input. |
| MacAddress.GroupedColons | ble_axis/software/mics_device_identification.py:356-362 | In the grouped form, ':' stands at exactly the positions 2, 5, 8, …; every other character comes from the input. |
| MacAddress.NormalizeMacAddressShape | ble_axis/software/mics_device_identification.py:356-362 | The normal form has colons exactly at every third position, no '-', '.' or lower-case letter, and its content is the upper-cased input without separators. |
| MacAddress.NormalizeIdempotent | ble_axis/software/mics_device_identification.py:356-362 | Normalising a normal form changes nothing. |
| MacAddress.SeparatorStyleIrrelevant | ble_axis/software/mics_device_identification.py:356-362 | Two inputs have the same normal form iff they are equal after stripping separators and upper-casing. |
| MacAddress.SeparatorInsertionIrrelevant | ble_axis/software/mics_device_identification.py:358-362 | Inserting any separator at any position leaves the normal form unchanged. |
| MacAddress.SeparatorChoiceIrrelevant | ble_axis/software/test_mics_identification.py:99-118 | The same groups written with ':', '-', '.' or no separator have one normal form, so "00:11:22:33:44:55", "00-11-…", "00.11.…" and "001122334455" agree. |
| DeviceIdentification.PrefixListsDisjoint | ble_axis/software/mics_device_identification.py:271-304 | No prefix is listed for two manufacturers. Manufacturers are distinct, and none is UNKNOWN. |
| DeviceIdentification.MatchPrefix | ble_axis/software/mics_device_identification.py:366-372 | The first row whose list holds the prefix decides the answer. No such row means UNKNOWN, and a non-UNKNOWN answer comes from a row holding the prefix. |
| DeviceIdentification.MacPrefix | ble_axis/software/mics_device_identification.py:366 | The first min(8, n) characters, a prefix of the address. |
| DeviceIdentification.IdentifyManufacturer | ble_axis/software/mics_device_identification.py:364-372 | UNKNOWN iff no row lists the first eight characters. Otherwise the answer is the unique manufacturer whose list holds them. |
| DeviceIdentification.FeaturesOf | ble_axis/software/mics_device_identification.py:338 | The security features of the manufacturer's row, or empty when it has none, as with UNKNOWN. |
| DeviceIdentification.IdentifyDeviceType | ble_axis/software/mics_device_identification.py:374-389 | UNKNOWN iff there is no signature. A data rate above 100 gives CARDIAC_MONITOR and takes precedence. Otherwise a hopping pattern longer than 5 gives DEFIBRILLATOR, else PACEMAKER. |
| DeviceIdentification.DetermineSecurityLevel | ble_axis/software/mics_device_identification.py:391-400 | CRITICAL iff DEFIBRILLATOR or DEEP_BRAIN_STIMULATOR. HIGH iff PACEMAKER or NEUROSTIMULATOR. MEDIUM iff INSULIN_PUMP or GLUCOSE_MONITOR. LOW otherwise. |
| DeviceIdentification.SecurityLevelIgnoresManufacturer | ble_axis/software/mics_device_identification.py:391-400 | The manufacturer argument never changes the level. |
| DeviceIdentification.IdentifiedSecurityLevel | ble_axis/software/mics_device_identification.py:374-400 | For an identified device: LOW without a signature, LOW for a data rate above 100, CRITICAL for a hopping pattern longer than 5, HIGH otherwise. A cardiac monitor is therefore LOW, not MEDIUM. |
| DeviceIdentification.AutoIdentified | ble_axis/software/mics_device_identification.py:324-342 | The record built for a new address; IdentifyDevice states its fields. |
| DeviceIdentification.ApplyUpdate | ble_axis/software/mics_device_identification.py:457-458 | One `setattr`: the named attribute takes the value and every other attribute keeps its own. |
| DeviceIdentification.ApplyUpdates | ble_axis/software/mics_device_identification.py:456-458 | The `setattr` loop over the updates in order; UntouchedFieldKept, UnknownNamesIgnored and LastUpdateWins state its effect. |
| DeviceIdentification.UntouchedFieldKept | ble_axis/software/mics_device_identification.py:456-458 | An attribute that no update names keeps its value. |
| DeviceIdentification.UnknownNamesIgnored | ble_axis/software/mics_device_identification.py:456-458 | Names the record does not have (`hasattr` false) change nothing. |
| DeviceIdentification.LastUpdateWins | ble_axis/software/mics_device_identification.py:456-458 | A value set by an update that no later update of the same attribute overrides is in the result. |
| DeviceIdentification.Select | ble_axis/software/mics_device_identification.py:471-484 | A filter: it holds exactly the input's records that meet the criterion, each as often as in the input and none that fails it, so it is no longer than its input. |
| DeviceIdentification.SelectAppend | ble_axis/software/mics_device_identification.py:471-484 | The filter keeps order: filtering a concatenation is the concatenation of the filtered parts, and a single record is kept iff it matches. |
| DeviceIdentification.SelectByKeys | ble_axis/software/mics_device_identification.py:471-484 | Filtering the records listed in key order is listing the records of the matching keys, in that order. |
| DeviceIdentification.ValuesMultiplicity | ble_axis/software/mics_device_identification.py:473 | Listing the records of distinct keys repeats each record once per key holding it. |
| DeviceIdentification.ListingContents | ble_axis/software/mics_device_identification.py:471-484 | A catalogue listing holds exactly the matching stored records, and has one entry per matching key. |
| DeviceIdentification.ListingByKeys | ble_axis/software/mics_device_identification.py:471-484 | A catalogue listing's i-th entry is the record of the i-th matching key in insertion order, and each record appears once per matching key holding it. |
| DeviceIdentification.SelectCountsKeys | ble_axis/software/mics_device_identification.py:471-484 | Filtering the records of distinct keys gives one entry per key whose record meets the criterion. |
| DeviceIdentification.SecurityLevelsPartition | ble_axis/software/mics_device_identification.py:508-513 | The four level listings together have as many records as the catalogue. |
| DeviceIdentification.CountCompliantBounds | ble_axis/software/mics_device_identification.py:539-545 | A compliance count is at most the number of records. It is 0 iff no record has the flag, and all iff every record has it. |
| DeviceIdentification.AllVulnerabilitiesMembership | ble_axis/software/mics_device_identification.py:547-548 | A vulnerability is reported iff some record lists it. |
| DeviceIdentification.MICSDeviceIdentifier.constructor | ble_axis/software/mics_device_identification.py:95-106 | An empty catalogue. |
| DeviceIdentification.MICSDeviceIdentifier.Devices | ble_axis/software/mics_device_identification.py:473 | `device_database.values()`: one record per key, the i-th being the record of the i-th inserted key. |
| DeviceIdentification.MICSDeviceIdentifier.GetDevice | ble_axis/software/mics_device_identification.py:467-469 | None iff the exact key is absent, otherwise the stored record. |
| DeviceIdentification.MICSDeviceIdentifier.GetDevicesByType | ble_axis/software/mics_device_identification.py:471-474 | Exactly the stored records of the given type: entry i is the record of the i-th matching key in insertion order, so each record appears once per key holding it and the length is the number of matching keys. |
| DeviceIdentification.MICSDeviceIdentifier.GetDevicesByManufacturer | ble_axis/software/mics_device_identification.py:476-479 | Exactly the stored records of the given manufacturer: entry i is the record of the i-th matching key in insertion order, so each record appears once per key holding it and the length is the number of matching keys. |
| DeviceIdentification.MICSDeviceIdentifier.GetDevicesBySecurityLevel | ble_axis/software/mics_device_identification.py:481-484 | Exactly the stored records at the given level: entry i is the record of the i-th matching key in insertion order, so each record appears once per key holding it and the length is the number of matching keys. |
| DeviceIdentification.MICSDeviceIdentifier.IdentifyDevice | ble_axis/software/mics_device_identification.py:306-354 | Never None, and keyed by the normalised address. A known key keeps its record and order, with only lastSeen refreshed. An unknown key gains exactly one new last entry with the looked-up manufacturer, the type heuristic, the derived level, model "Unknown", serial "", firmware "Unknown", channels 1-3-5-7-9, the table's features, FCC-only compliance and the "Auto-identified" note. |
| DeviceIdentification.MICSDeviceIdentifier.AddDevice | ble_axis/software/mics_device_identification.py:440-447 | Stores the record under its own address, replacing any record there. A new key goes last and an existing key keeps its place. `GetDevice` then returns it. |
| DeviceIdentification.MICSDeviceIdentifier.UpdateDevice | ble_axis/software/mics_device_identification.py:449-465 | An absent key changes nothing. A present key gets the updates in order and then lastSeen := now; no other record and no key order changes. |
| DeviceIdentification.MICSDeviceIdentifier.GenerateSecurityReport | ble_axis/software/mics_device_identification.py:503-554 | The total is the catalogue size, and the four level counts are the listing lengths and add up to it. The manufacturer and type summaries are per-name counts, each adding up to the total. Each compliance count is at most the total. The vulnerabilities are the concatenated lists. |
| DeviceIdentification.SummarizeDevices | ble_axis/software/mics_device_identification.py:526-548 | The report loop: per-manufacturer and per-type counts that sum to the number of records, the three `get(flag, False)` counts each bounded by it, and the concatenated vulnerability lists. |

## Left out

- HTTP access. `_query_public_directories`, `_query_authorized_sources` and their parsers are not modelled; what they return is a parameter of the enumeration.
- The Fernet cipher itself. The model assumes only that decrypting an encryption returns the input. Real Fernet tokens are randomised, and the model's `encrypt` is a function, so repeated encryptions of one string give one token here.
- Time. The Python calls `datetime.now()` separately for each log record and for `last_seen`/`first_seen`, so the values may differ. The model uses one `now` per call, and `stamp` stands for `str(int(time.time()))` in identifiers.
- Logging through `logger`.
- The `try`/`except` wrappers that only re-raise or log and return an empty value. No modelled step can raise, so `identify_device` never returns None.
- DefensiveResearch.EncryptSensitiveData: the Python placeholder returns its argument unchanged. It is modelled as the identity and has no contract of its own.
- Serialisation of reports and assessments into dictionaries. The model's report holds the records themselves.
- The SQLite and JSON persistence of the device identifier: `_init_database`, `_load_known_devices`, `_create_default_database`, `_save_device_to_database` and `export_database`. The catalogue starts empty, and the stored copy on disk is not modelled.
- Device fields that are floating point or free-form: `power_level`, `duty_cycle` and `communication_pattern`. The same goes for the signature's `packet_structure`, `timing_characteristics`, `power_variations` and `interference_patterns`, and for the per-model regular expressions in the manufacturer table. None of these is read by the modelled logic. An update naming one of them is treated like an unknown name.
- DeviceIdentification.ApplyUpdate: a Python `setattr` can assign a value of any type. The model only takes values of the attribute's own type, and does not model names the record has through its class, such as dunder attributes.
- Object identity and aliasing. Records, reports and descriptors are values here, so a change through one reference is never visible through another. In the Python these objects are shared:
  - DeviceIdentification.MICSDeviceIdentifier.IdentifyDevice returns the stored object, and DeviceIdentification.MICSDeviceIdentifier.AddDevice stores the caller's object (`mics_device_identification.py:443`), so later updates show through the caller's reference;
  - the record built by DeviceIdentification.AutoIdentified shares the manufacturer table's `security_features` list (`mics_device_identification.py:338`);
  - AuthorizedEnumeration.AuthorizedBridgeDiscovery.EnumeratePublicBridges returns the same descriptor objects it appends to the discovered list (`authorized-enumeration-engine.py:146-153`);
  - DefensiveResearch.DefensiveResearchFramework.ResearchVulnerabilities and DefensiveResearch.DefensiveResearchFramework.ConductSecurityAssessment return the objects they append to the framework's lists (`defensive-research-framework.py:120-123`, `266-269`).
- MacAddress.NormalizeMacAddress: `str.upper()` is modelled on ASCII letters only.
- `generate_security_report`'s `report_date` is the parameter `now`.
- Test expectations that contradict the code are not followed; the model follows the code. The tests in `ble_axis/software/test_mics_identification.py` expect:
  - manufacturers for prefixes absent from the table (175-184);
  - DEFIBRILLATOR for a five-entry hopping pattern (126-139), but the code requires more than 5;
  - MEDIUM for a cardiac monitor (208-213), but the code gives LOW, proved in `IdentifiedSecurityLevel`;
  - None for malformed addresses (378-400), but `identify_device` always returns a record.
- `operational-bridge-discovery-engine.py` and `captcha-bypass-engine.py` are not part of this model. They consist of network, subprocess and browser I/O with placeholder parsers.
