/**
 * The two constant tables the service builds at construction time: the
 * recipient of each code and the message template of each code. Each pattern
 * is written as its sequence of literal text and `{Name}` tokens; the
 * template's strings are the spelled-out patterns.
 */
module Catalog {
  import opened Placeholders
  import opened MailModels
  import opened Wrappers
  import opened Text
  import opened Codes
  import opened Wording

  /** Subject and body pattern of one template, token by token. */
  datatype Pattern = Pattern(subject: seq<Segment>, body: seq<Segment>, category: string)

  /** One row of the recipient table; the printed fields are brace free by their types. */
  function Contact(code: string, name: Plain, email: string, department: Plain, role: Plain): (r: MailRecipient)
    ensures BraceFree(r.name) && BraceFree(r.department) && BraceFree(r.role)
  {
    MailRecipient(code, name, email, department, role)
  }

  const ProductionEmployeeContact := Contact("PE", ProductionEmployeeName, "john.smith@company.com", ProductionDepartment, EmployeeRole)
  const ProductionManagerContact := Contact("PM", ProductionManagerName, "sarah.johnson@company.com", ProductionDepartment, ManagerRole)
  const HumanResourceContact := Contact("HR", HumanResourceName, "mike.wilson@company.com", HumanResourceDepartment, HumanResourceSpecialistRole)
  const FinanceContact := Contact("FN", FinanceName, "lisa.brown@company.com", FinanceDepartment, FinanceManagerRole)
  const InformationTechnologyContact := Contact("IT", InformationTechnologyName, "david.lee@company.com", InformationTechnologyDepartment, AdministratorRole)

  const ProductionEmployeePattern := Pattern(
    [Lit(PeSubjectLead), Hole("Date")],
    [ Lit(Salutation), Hole("RecipientName"),
      Lit(PeDateLead), Hole("Date"),
      Lit(PeUnitsProducedLead), Hole(UnitsProducedKey),
      Lit(PeQualityScoreLead), Hole(QualityScoreKey),
      Lit(PeEfficiencyRateLead), Hole(EfficiencyRateKey),
      Lit(PeDowntimeLead), Hole(DowntimeKey),
      Lit(PeTargetLead), Hole(TargetKey),
      Lit(PePerformanceMessageLead), Hole(PerformanceMessageKey),
      Lit(PeClosing) ],
    "Production")

  const ProductionManagerPattern := Pattern(
    [Lit(PmSubjectLead), Hole("Date")],
    [ Lit(Salutation), Hole("RecipientName"),
      Lit(PmDateLead), Hole("Date"),
      Lit(PmTotalUnitsLead), Hole(TotalUnitsKey),
      Lit(PmTeamPerformanceLead), Hole(TeamPerformanceKey),
      Lit(PmIssuesCountLead), Hole(IssuesCountKey),
      Lit(PmResolvedIssuesLead), Hole(ResolvedIssuesKey),
      Lit(PmDepartmentStatusLead), Hole(DepartmentStatusKey),
      Lit(PmActionItemsLead), Hole(ActionItemsKey),
      Lit(PmClosing) ],
    "Management")

  const HumanResourcePattern := Pattern(
    [Lit(HrSubjectLead), Hole("Date")],
    [ Lit(Salutation), Hole("RecipientName"),
      Lit(HrDateLead), Hole("Date"),
      Lit(HrPresentCountLead), Hole(PresentCountKey),
      Lit(HrAbsentCountLead), Hole(AbsentCountKey),
      Lit(HrLateCountLead), Hole(LateCountKey),
      Lit(HrLeaveRequestsLead), Hole(LeaveRequestsKey),
      Lit(HrTrainingRequestsLead), Hole(TrainingRequestsKey),
      Lit(HrPendingActionsLead), Hole(PendingActionsKey),
      Lit(HrClosing) ],
    "HR")

  const FinancePattern := Pattern(
    [Lit(FnSubjectLead), Hole("Date")],
    [ Lit(Salutation), Hole("RecipientName"),
      Lit(FnDateLead), Hole("Date"),
      Lit(FnRevenueLead), Hole(RevenueKey),
      Lit(FnExpensesLead), Hole(ExpensesKey),
      Lit(FnNetAmountLead), Hole(NetAmountKey),
      Lit(FnBudgetStatusLead), Hole(BudgetStatusKey),
      Lit(FnOutstandingCountLead), Hole(OutstandingCountKey),
      Lit(FnReviewItemsLead), Hole(ReviewItemsKey),
      Lit(FnClosing) ],
    "Finance")

  const InformationTechnologyPattern := Pattern(
    [Lit(ItSubjectLead), Hole("Date")],
    [ Lit(Salutation), Hole("RecipientName"),
      Lit(ItDateLead), Hole("Date"),
      Lit(ItServerUptimeLead), Hole(ServerUptimeKey),
      Lit(ItNetworkStatusLead), Hole(NetworkStatusKey),
      Lit(ItBackupStatusLead), Hole(BackupStatusKey),
      Lit(ItNewTicketsLead), Hole(NewTicketsKey),
      Lit(ItResolvedTicketsLead), Hole(ResolvedTicketsKey),
      Lit(ItPendingTicketsLead), Hole(PendingTicketsKey),
      Lit(ItSecurityUpdatesLead), Hole(SecurityUpdatesKey),
      Lit(ItClosing) ],
    "IT")

  /** The recipient registered for a code. */
  function ContactFor(c: Code): MailRecipient {
    match c
    case PE => ProductionEmployeeContact
    case PM => ProductionManagerContact
    case HR => HumanResourceContact
    case FN => FinanceContact
    case IT => InformationTechnologyContact
  }

  /** The pattern registered for a code. */
  function PatternFor(c: Code): Pattern {
    match c
    case PE => ProductionEmployeePattern
    case PM => ProductionManagerPattern
    case HR => HumanResourcePattern
    case FN => FinancePattern
    case IT => InformationTechnologyPattern
  }

  /** The template a pattern spells. */
  function Spell(code: string, p: Pattern): MailTemplate {
    MailTemplate(code, Flatten(p.subject), Flatten(p.body), p.category)
  }

  function InitializeRecipients(): map<string, MailRecipient> {
    map[
      "PE" := ProductionEmployeeContact,
      "PM" := ProductionManagerContact,
      "HR" := HumanResourceContact,
      "FN" := FinanceContact,
      "IT" := InformationTechnologyContact
    ]
  }

  function InitializeTemplates(): map<string, MailTemplate> {
    map[
      "PE" := Spell("PE", ProductionEmployeePattern),
      "PM" := Spell("PM", ProductionManagerPattern),
      "HR" := Spell("HR", HumanResourcePattern),
      "FN" := Spell("FN", FinancePattern),
      "IT" := Spell("IT", InformationTechnologyPattern)
    ]
  }
}
