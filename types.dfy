/** The shared records of the console (types.ts). Timestamps are not modelled:
    no behaviour of the core depends on them. */
module Types {
  import opened Wrappers

  /** Who wrote a chat message; the wire names are "user" and "model". */
  datatype Role = User | Model

  function RoleName(role: Role): (name: string)
    ensures name == "user" || name == "model"
  {
    match role
    case User => "user"
    case Model => "model"
  }

  /** Inverse of `RoleName`, for reading a role back from a request. */
  function RoleFromName(name: string): (role: Option<Role>)
    ensures role.Some? <==> name == "user" || name == "model"
  {
    if name == "user" then Some(User)
    else if name == "model" then Some(Model)
    else None
  }

  lemma RoleNameRoundTrip(role: Role)
    ensures RoleFromName(RoleName(role)) == Some(role)
  {
  }

  datatype ChatMessage = ChatMessage(role: Role, text: string)

  /** The four severities a diagnosis may report. */
  datatype Severity = Low | Medium | High | Critical

  function SeverityName(severity: Severity): string {
    match severity
    case Low => "Low"
    case Medium => "Medium"
    case High => "High"
    case Critical => "Critical"
  }

  datatype AnalysisResult = AnalysisResult(
    issue: string,
    severity: Severity,
    estimatedCost: string,
    timeRequired: string,
    recommendation: string)

  datatype Review = Review(id: int, customer: string, rating: int, content: string, date: string)

  datatype FeedbackAnalysis = FeedbackAnalysis(
    sentiment: string,
    keyTopics: seq<string>,
    summary: string,
    actionItems: seq<string>)
}
