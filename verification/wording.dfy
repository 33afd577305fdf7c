/**
 * Every fixed text the service prints: the literal stretches of the five
 * templates and the texts the data strategies report. Each has the type
 * `Plain`, so it is checked brace free once, here. Longer texts are written
 * as concatenations of short literals: the verifier reasons about a long
 * string literal character by character, and short pieces keep the
 * brace-freedom checks, and every proof that unfolds these constants, cheap.
 * The pieces join to exactly the text the service prints.
 */
module Wording {
  import opened Text

  // The templates' texts, each named after the token it leads into;
  // `Salutation` opens every body and each `...Closing` ends one.

  const Salutation: Plain := "Dear "

  const PeSubjectLead: Plain := "Production " + "Report - "
  const PeDateLead: Plain := ",\n\nThis is your " + "automated " + "production " + "report for "
  const PeUnitsProducedLead: Plain := ".\n\nProduction " + "Summary:\n- " + "Units Produced: "
  const PeQualityScoreLead: Plain := "\n- Quality " + "Score: "
  const PeEfficiencyRateLead: Plain := "%\n- Efficiency " + "Rate: "
  const PeDowntimeLead: Plain := "%\n- Downtime: "
  const PeTargetLead: Plain := " hours\n\nYour " + "performance " + "target for this " + "period was "
  const PePerformanceMessageLead: Plain := " units.\n"
  const PeClosing: Plain := "\n\nBest regards,\n" + "Production " + "Management " + "System"

  const PmSubjectLead: Plain := "Daily " + "Production " + "Management " + "Report - "
  const PmDateLead: Plain := ",\n\nYour daily " + "production " + "management " + "summary for "
  const PmTotalUnitsLead: Plain := ":\n\nOverall " + "Production " + "Metrics:\n- " + "Total Units: "
  const PmTeamPerformanceLead: Plain := "\n- Team " + "Performance: "
  const PmIssuesCountLead: Plain := "%\n- Issues " + "Reported: "
  const PmResolvedIssuesLead: Plain := "\n- Resolved " + "Issues: "
  const PmDepartmentStatusLead: Plain := "\n\nDepartment " + "Status: "
  const PmActionItemsLead: Plain := "\n\nAction items " + "requiring your " + "attention:\n"
  const PmClosing: Plain := "\n\nBest regards,\n" + "Management " + "Information " + "System"

  const HrSubjectLead: Plain := "HR Daily " + "Summary - "
  const HrDateLead: Plain := ",\n\nHuman " + "Resources daily " + "summary for "
  const HrPresentCountLead: Plain := ":\n\nAttendance " + "Summary:\n- " + "Present: "
  const HrAbsentCountLead: Plain := "\n- Absent: "
  const HrLateCountLead: Plain := "\n- Late " + "Arrivals: "
  const HrLeaveRequestsLead: Plain := "\n\nNew Requests:\n" + "- Leave " + "Requests: "
  const HrTrainingRequestsLead: Plain := "\n- Training " + "Requests: "
  const HrPendingActionsLead: Plain := "\n\nPending " + "Actions: "
  const HrClosing: Plain := "\n\nBest regards,\n" + "HR Management " + "System"

  const FnSubjectLead: Plain := "Financial " + "Summary - "
  const FnDateLead: Plain := ",\n\nFinancial " + "summary for "
  const FnRevenueLead: Plain := ":\n\nDaily " + "Figures:\n- " + "Revenue: $"
  const FnExpensesLead: Plain := "\n- Expenses: $"
  const FnNetAmountLead: Plain := "\n- Net: $"
  const FnBudgetStatusLead: Plain := "\n\nBudget " + "Status: "
  const FnOutstandingCountLead: Plain := "\nOutstanding " + "Items: "
  const FnReviewItemsLead: Plain := "\n\nRequires " + "Review: "
  const FnClosing: Plain := "\n\nBest regards,\n" + "Financial " + "Management " + "System"

  const ItSubjectLead: Plain := "IT System " + "Report - "
  const ItDateLead: Plain := ",\n\nIT systems " + "status report " + "for "
  const ItServerUptimeLead: Plain := ":\n\nSystem " + "Health:\n- " + "Server Uptime: "
  const ItNetworkStatusLead: Plain := "%\n- Network " + "Status: "
  const ItBackupStatusLead: Plain := "\n- Backup " + "Status: "
  const ItNewTicketsLead: Plain := "\n\nIncidents:\n- " + "New Tickets: "
  const ItResolvedTicketsLead: Plain := "\n- Resolved: "
  const ItPendingTicketsLead: Plain := "\n- Pending: "
  const ItSecurityUpdatesLead: Plain := "\n\nSecurity " + "Updates: "
  const ItClosing: Plain := "\n\nBest regards,\n" + "IT Management " + "System"

  // The texts the data strategies report.

  const TargetAchieved: Plain := "Excellent work! " + "Target achieved."
  const TargetMissed: Plain := "Please focus on " + "meeting " + "production " + "targets."
  const OperationalStatus: Plain := "Operational"
  const ManagementActionItems: Plain := "Review quality " + "metrics, " + "Schedule " + "maintenance for " + "Line 2"
  const HumanResourcePendingActions: Plain := "Performance " + "reviews for Q1, " + "Update employee " + "handbook"
  const BudgetOnTrack: Plain := "On Track"
  const FinanceReviewItems: Plain := "Monthly " + "reconciliation, " + "Vendor payments " + "approval"
  const NetworkStable: Plain := "Stable"
  const BackupCompleted: Plain := "Completed"
  const SecurityUpdateSummary: Plain := "All systems " + "updated, No " + "critical " + "vulnerabilities"

  // The dictionary keys the strategies fill and the templates name as tokens.

  const UnitsProducedKey: Plain := "UnitsProduced"
  const QualityScoreKey: Plain := "QualityScore"
  const EfficiencyRateKey: Plain := "EfficiencyRate"
  const DowntimeKey: Plain := "Downtime"
  const TargetKey: Plain := "Target"
  const PerformanceMessageKey: Plain := "PerformanceMessage"
  const TotalUnitsKey: Plain := "TotalUnits"
  const TeamPerformanceKey: Plain := "TeamPerformance"
  const IssuesCountKey: Plain := "IssuesCount"
  const ResolvedIssuesKey: Plain := "ResolvedIssues"
  const DepartmentStatusKey: Plain := "DepartmentStatus"
  const ActionItemsKey: Plain := "ActionItems"
  const PresentCountKey: Plain := "PresentCount"
  const AbsentCountKey: Plain := "AbsentCount"
  const LateCountKey: Plain := "LateCount"
  const LeaveRequestsKey: Plain := "LeaveRequests"
  const TrainingRequestsKey: Plain := "TrainingRequests"
  const PendingActionsKey: Plain := "PendingActions"
  const RevenueKey: Plain := "Revenue"
  const ExpensesKey: Plain := "Expenses"
  const NetAmountKey: Plain := "NetAmount"
  const BudgetStatusKey: Plain := "BudgetStatus"
  const OutstandingCountKey: Plain := "OutstandingCount"
  const ReviewItemsKey: Plain := "ReviewItems"
  const ServerUptimeKey: Plain := "ServerUptime"
  const NetworkStatusKey: Plain := "NetworkStatus"
  const BackupStatusKey: Plain := "BackupStatus"
  const NewTicketsKey: Plain := "NewTickets"
  const ResolvedTicketsKey: Plain := "ResolvedTickets"
  const PendingTicketsKey: Plain := "PendingTickets"
  const SecurityUpdatesKey: Plain := "SecurityUpdates"

  // The keys of each strategy, in insertion order.

  const ProductionEmployeeKeys: seq<Plain> :=
    [UnitsProducedKey, QualityScoreKey, EfficiencyRateKey, DowntimeKey, TargetKey, PerformanceMessageKey]
  const ProductionManagerKeys: seq<Plain> :=
    [TotalUnitsKey, TeamPerformanceKey, IssuesCountKey, ResolvedIssuesKey, DepartmentStatusKey, ActionItemsKey]
  const HumanResourceKeys: seq<Plain> :=
    [PresentCountKey, AbsentCountKey, LateCountKey, LeaveRequestsKey, TrainingRequestsKey, PendingActionsKey]
  const FinanceKeys: seq<Plain> :=
    [RevenueKey, ExpensesKey, NetAmountKey, BudgetStatusKey, OutstandingCountKey, ReviewItemsKey]
  const InformationTechnologyKeys: seq<Plain> :=
    [ServerUptimeKey, NetworkStatusKey, BackupStatusKey, NewTicketsKey, ResolvedTicketsKey, PendingTicketsKey, SecurityUpdatesKey]

  // The recipients' printed fields.

  const ProductionEmployeeName: Plain := "John Smith"
  const ProductionManagerName: Plain := "Sarah Johnson"
  const HumanResourceName: Plain := "Mike Wilson"
  const FinanceName: Plain := "Lisa Brown"
  const InformationTechnologyName: Plain := "David Lee"
  const ProductionDepartment: Plain := "Production"
  const HumanResourceDepartment: Plain := "Human Resources"
  const FinanceDepartment: Plain := "Finance"
  const InformationTechnologyDepartment: Plain := "IT"
  const EmployeeRole: Plain := "Employee"
  const ManagerRole: Plain := "Manager"
  const HumanResourceSpecialistRole: Plain := "HR Specialist"
  const FinanceManagerRole: Plain := "Finance Manager"
  const AdministratorRole: Plain := "IT Administrator"
}
