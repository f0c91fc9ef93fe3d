/**
 * The mock compliance engine: the domain records, the fixed verdict table behind
 * `analyzeAction`, the construction of a dashboard alert from a verdict, and the two
 * module-level stores that `addAlertToDashboard` and `addEscalation` prepend onto.
 */
module ComplianceEngine {
  import opened JsSemantics

  /** A staff action as the simulator submits it. */
  datatype Action = Action(
    employeeId: string,
    employeeName: string,
    actionType: string,
    actionPayload: string,
    timestamp: string)

  datatype PolicyCitation = PolicyCitation(section: string, text: string)

  datatype Decision = Allow | Warn | Block | Escalate

  datatype Risk = Low | Medium | High | Critical

  datatype ComplianceResponse = ComplianceResponse(
    decision: Decision,
    risk: Risk,
    policyCitations: seq<PolicyCitation>,
    reason: string,
    recommendedActions: seq<string>,
    action: Action)

  datatype AlertStatus = Pending | Reviewing | Resolved

  /** A ComplianceResponse extended with the case fields the dashboard shows. */
  datatype DashboardAlert = DashboardAlert(
    decision: Decision,
    risk: Risk,
    policyCitations: seq<PolicyCitation>,
    reason: string,
    recommendedActions: seq<string>,
    action: Action,
    id: string,
    employee: string,
    timestamp: string,
    status: AlertStatus)

  /** The verdict an alert was built from: the alert without its case fields. */
  function AsResponse(a: DashboardAlert): ComplianceResponse {
    ComplianceResponse(a.decision, a.risk, a.policyCitations, a.reason, a.recommendedActions, a.action)
  }

  /** The integer `Math.floor(1000 + Math.random() * 9000)` can produce. */
  type CaseSuffix = n: int | 1000 <= n <= 9999 witness 1000

  /** The case identifier `CASE-${n}`. */
  function CaseId(n: CaseSuffix): (id: string)
    ensures |id| > 5 && id[..5] == "CASE-"
    ensures AllDigits(id[5..]) && DecimalValue(id[5..]) == n
  {
    DecimalRoundTrip(n);
    "CASE-" + DecimalString(n)
  }

  /** A case identifier is "CASE-" and four digits that read back as the suffix. */
  lemma CaseIdShape(n: CaseSuffix)
    ensures |CaseId(n)| == 9 && CaseId(n)[..5] == "CASE-"
    ensures AllDigits(CaseId(n)[5..]) && DecimalValue(CaseId(n)[5..]) == n
  {
    FourDigits(n);
    DecimalRoundTrip(n);
    assert CaseId(n)[5..] == DecimalString(n);
  }

  /** Distinct suffixes give distinct case identifiers. */
  lemma CaseIdInjective(m: CaseSuffix, n: CaseSuffix)
    ensures CaseId(m) == CaseId(n) ==> m == n
  {
    if CaseId(m) == CaseId(n) {
      CaseIdShape(m);
      CaseIdShape(n);
    }
  }

  /** The alert built from a verdict: the verdict's fields and a new pending case. */
  function NewAlert(response: ComplianceResponse, n: CaseSuffix): (a: DashboardAlert)
    ensures AsResponse(a) == response
    ensures a.id == CaseId(n) && a.employee == response.action.employeeName
    ensures a.timestamp == "Just now" && a.status == Pending
  {
    DashboardAlert(
      response.decision, response.risk, response.policyCitations, response.reason,
      response.recommendedActions, response.action,
      CaseId(n), response.action.employeeName, "Just now", Pending)
  }

  /** The five action types the table knows. */
  const KnownActionTypes: set<string> := {
    "export_customer_list", "external_share", "post_sensitive_data",
    "bypass_approval", "access_restricted"
  }

  /** Every verdict in the table pairs its decision with one risk level. */
  function RiskFor(d: Decision): Risk {
    match d
    case Allow => Low
    case Warn => Medium
    case Block => Critical
    case Escalate => High
  }

  /** The `responses` object literal, built for one action. */
  function Responses(action: Action): (table: map<string, ComplianceResponse>)
    ensures table.Keys == KnownActionTypes
    ensures forall t :: t in table ==> table[t].action == action && table[t].decision != Allow
    ensures forall t :: t in table ==>
              |table[t].policyCitations| >= 1 && |table[t].recommendedActions| >= 1
  {
    map[
      "export_customer_list" := ComplianceResponse(
        Block, Critical, ExportCitations, ExportReason, ExportRecommendations, action),
      "external_share" := ComplianceResponse(
        Escalate, High, ShareCitations, ShareReason, ShareRecommendations, action),
      "post_sensitive_data" := ComplianceResponse(
        Block, Critical, PostCitations, PostReason, PostRecommendations, action),
      "bypass_approval" := ComplianceResponse(
        Warn, Medium, BypassCitations, BypassReason, BypassRecommendations, action),
      "access_restricted" := ComplianceResponse(
        Escalate, High, AccessCitations, AccessReason, AccessRecommendations, action)
    ]
  }

  // The texts of the table, one constant per literal of the source; \U{00A7} is the section sign.

  const ExportCitations: seq<PolicyCitation> := [
    PolicyCitation(ExportSection1, ExportCitation1),
    PolicyCitation(ExportSection2, ExportCitation2)
  ]
  const ExportSection1 := "Data Privacy Policy \U{00A7} 4.2"
  const ExportCitation1 := "Customer data exports require written authorization from Data Protection Officer and must be logged with business justification."
  const ExportSection2 := "Acceptable Use Policy \U{00A7} 2.1"
  const ExportCitation2 := "Bulk customer data downloads are prohibited without explicit approval from management and legal review."
  const ExportReason := "Attempted unauthorized export of customer database. This action violates data privacy policies and poses significant risk of data breach. No approval workflow was initiated."
  const ExportRecommendations: seq<string> := [ExportStep1, ExportStep2, ExportStep3, ExportStep4]
  const ExportStep1 := "Submit formal data access request through compliance portal"
  const ExportStep2 := "Obtain written approval from Data Protection Officer"
  const ExportStep3 := "Complete data handling training (required)"
  const ExportStep4 := "Use approved secure transfer method if request is granted"

  const ShareCitations: seq<PolicyCitation> := [
    PolicyCitation(ShareSection1, ShareCitation1),
    PolicyCitation(ShareSection2, ShareCitation2)
  ]
  const ShareSection1 := "Information Security Policy \U{00A7} 3.4"
  const ShareCitation1 := "Confidential files may only be shared externally through approved secure channels with encrypted transmission."
  const ShareSection2 := "Data Classification Policy \U{00A7} 5.1"
  const ShareCitation2 := "Files marked \"Confidential\" or higher require dual authorization for external sharing."
  const ShareReason := "External file sharing detected without going through secure approval workflow. File appears to contain confidential information based on classification tags."
  const ShareRecommendations: seq<string> := [ShareStep1, ShareStep2, ShareStep3, ShareStep4]
  const ShareStep1 := "Use approved secure file sharing platform (SecureShare Portal)"
  const ShareStep2 := "Request authorization from your manager and compliance team"
  const ShareStep3 := "Ensure recipient has signed NDA on file"
  const ShareStep4 := "Apply appropriate DLP controls before sharing"

  const PostCitations: seq<PolicyCitation> := [
    PolicyCitation(PostSection1, PostCitation1),
    PolicyCitation(PostSection2, PostCitation2)
  ]
  const PostSection1 := "Data Privacy Policy \U{00A7} 6.3"
  const PostCitation1 := "Customer PII must never be posted in public or semi-public communication channels including Slack, Teams, or email distribution lists."
  const PostSection2 := "Acceptable Use Policy \U{00A7} 7.2"
  const PostCitation2 := "Sensitive data disclosure in public channels constitutes a reportable data breach incident."
  const PostReason := "Detected attempt to post customer personally identifiable information (PII) to a public Slack channel. This would constitute an immediate data breach under GDPR and other regulations."
  const PostRecommendations: seq<string> := [PostStep1, PostStep2, PostStep3, PostStep4]
  const PostStep1 := "Delete draft message immediately"
  const PostStep2 := "Use secure internal case management system for customer discussions"
  const PostStep3 := "Anonymize data before sharing in group channels"
  const PostStep4 := "Complete mandatory data privacy refresher training"

  const BypassCitations: seq<PolicyCitation> := [
    PolicyCitation(BypassSection1, BypassCitation1)
  ]
  const BypassSection1 := "Internal Controls Policy \U{00A7} 8.1"
  const BypassCitation1 := "All financial transactions above $5,000 require dual authorization through the approval workflow system."
  const BypassReason := "Attempted to bypass standard approval workflow for a transaction that requires manager authorization. While not an immediate breach, this circumvents internal controls."
  const BypassRecommendations: seq<string> := [BypassStep1, BypassStep2, BypassStep3]
  const BypassStep1 := "Submit request through proper approval channel"
  const BypassStep2 := "Wait for manager authorization before proceeding"
  const BypassStep3 := "Document business justification for expedited processing if urgent"

  const AccessCitations: seq<PolicyCitation> := [
    PolicyCitation(AccessSection1, AccessCitation1),
    PolicyCitation(AccessSection2, AccessCitation2)
  ]
  const AccessSection1 := "Access Control Policy \U{00A7} 2.5"
  const AccessCitation1 := "Users may only access data commensurate with their role and clearance level. Unauthorized access attempts are logged and reviewed."
  const AccessSection2 := "Code of Conduct \U{00A7} 4.7"
  const AccessCitation2 := "Attempting to access systems or data beyond your authorization level may result in disciplinary action."
  const AccessReason := "User attempted to access data classified above their clearance level (Confidential access with Standard clearance). This triggers automatic escalation and audit review."
  const AccessRecommendations: seq<string> := [AccessStep1, AccessStep2, AccessStep3, AccessStep4]
  const AccessStep1 := "Request proper access elevation through IT Security team"
  const AccessStep2 := "Provide business justification for access requirement"
  const AccessStep3 := "Obtain manager approval for clearance upgrade"
  const AccessStep4 := "Await security review before retrying access"

  const DefaultReason := "Action analyzed and found to be compliant with current policies."
  const DefaultRecommendations: seq<string> := ["Continue with action", "Ensure proper documentation"]

  /** The verdict for an action type the table does not know. */
  function DefaultResponse(action: Action): (r: ComplianceResponse)
    ensures r.decision == Allow && r.risk == Low && r.action == action
    ensures r.policyCitations == [] && |r.recommendedActions| == 2
  {
    ComplianceResponse(Allow, Low, [], DefaultReason, DefaultRecommendations, action)
  }

  /**
   * `analyzeAction`, with the table consulted for its own keys only (see
   * AnalyzeActionAsWritten for the lookup as the source writes it).
   */
  function AnalyzeAction(action: Action): (r: ComplianceResponse)
    ensures r.action == action
    ensures r.decision == Allow <==> action.actionType !in KnownActionTypes
    ensures r.risk == RiskFor(r.decision)
    ensures action.actionType in KnownActionTypes ==>
              |r.policyCitations| >= 1 && |r.recommendedActions| >= 1
    ensures action.actionType !in KnownActionTypes ==>
              r.policyCitations == [] && |r.recommendedActions| == 2
  {
    var table := Responses(action);
    assert table.Keys == KnownActionTypes;
    if action.actionType in table then table[action.actionType] else DefaultResponse(action)
  }

  /** The decision and risk of each of the five known action types. */
  lemma KnownVerdicts(action: Action)
    ensures action.actionType == "export_customer_list" ==>
              AnalyzeAction(action).decision == Block && AnalyzeAction(action).risk == Critical
    ensures action.actionType == "external_share" ==>
              AnalyzeAction(action).decision == Escalate && AnalyzeAction(action).risk == High
    ensures action.actionType == "post_sensitive_data" ==>
              AnalyzeAction(action).decision == Block && AnalyzeAction(action).risk == Critical
    ensures action.actionType == "bypass_approval" ==>
              AnalyzeAction(action).decision == Warn && AnalyzeAction(action).risk == Medium
    ensures action.actionType == "access_restricted" ==>
              AnalyzeAction(action).decision == Escalate && AnalyzeAction(action).risk == High
  {
  }

  /** What `responses[action.action_type] || {...}` evaluates to, as the source writes it. */
  datatype Analysis = Verdict(response: ComplianceResponse) | PrototypeMember(name: string)

  /** `analyzeAction` as written: an inherited Object.prototype member is truthy and is returned. */
  function AnalyzeActionAsWritten(action: Action): (r: Analysis)
    ensures r.PrototypeMember? <==> action.actionType in ObjectPrototypeMembers
    ensures r.PrototypeMember? ==> r.name == action.actionType
    ensures action.actionType in KnownActionTypes ==>
              r == Verdict(Responses(action)[action.actionType])
    ensures action.actionType !in KnownActionTypes && action.actionType !in ObjectPrototypeMembers ==>
              r == Verdict(DefaultResponse(action))
  {
    assert Responses(action).Keys == KnownActionTypes;
    assert KnownActionTypes !! ObjectPrototypeMembers;
    match Lookup(Responses(action), action.actionType)
    case Own(r) => Verdict(r)
    case Inherited(name) => PrototypeMember(name)
    case Undefined => Verdict(DefaultResponse(action))
  }

  /** The action type "constructor" gets the Object constructor back instead of a verdict. */
  lemma AnalyzeActionAsWrittenLeaksPrototype(action: Action)
    requires action.actionType == "constructor"
    ensures AnalyzeActionAsWritten(action) == PrototypeMember("constructor")
  {
    assert action.actionType !in Responses(action);
  }

  /** Away from the inherited names, the source and the corrected lookup agree. */
  lemma AnalyzeActionAgreesAsWritten(action: Action)
    ensures action.actionType !in ObjectPrototypeMembers ==>
              AnalyzeActionAsWritten(action) == Verdict(AnalyzeAction(action))
    ensures action.actionType in ObjectPrototypeMembers ==>
              AnalyzeActionAsWritten(action).PrototypeMember?
  {
    assert Responses(action).Keys == KnownActionTypes;
    assert KnownActionTypes !! ObjectPrototypeMembers;
  }

  /** The module-level arrays `activeAlerts` and `escalations`. */
  class DashboardStore {
    var activeAlerts: seq<DashboardAlert>
    var escalations: seq<ComplianceResponse>

    constructor ()
      ensures activeAlerts == [] && escalations == []
    {
      activeAlerts := [];
      escalations := [];
    }

    /** `addAlertToDashboard`: the new pending case goes in front of the existing ones. */
    method AddAlertToDashboard(response: ComplianceResponse, n: CaseSuffix)
      modifies this`activeAlerts
      ensures |activeAlerts| == |old(activeAlerts)| + 1
      ensures activeAlerts[0] == NewAlert(response, n)
      ensures activeAlerts[1..] == old(activeAlerts)
    {
      activeAlerts := [NewAlert(response, n)] + activeAlerts;
    }

    /** `addEscalation`: the response goes in front of the earlier escalations. */
    method AddEscalation(response: ComplianceResponse)
      modifies this`escalations
      ensures |escalations| == |old(escalations)| + 1
      ensures escalations[0] == response
      ensures escalations[1..] == old(escalations)
    {
      escalations := [response] + escalations;
    }
  }
}
