/** The records the test-plan application passes around: tracker issues,
    test-approach sections, saved and published plans, and the tracker
    configuration. Declarations only, plus the application's constants. */
module Types {

  datatype Option<+T> = None | Some(value: T)

  /** A value or the message of the error that was thrown instead. */
  datatype Result<+T, +E> = Success(value: T) | Failure(error: E)

  /** The `parent` field of a tracker issue: the parent issue's key and summary. */
  datatype ParentRef = ParentRef(key: string, summary: string)

  /** One issue as the tracker's search returns it. `assignee` holds the
      display name and `priority` the priority name, when present. */
  datatype JiraIssue = JiraIssue(
    key: string,
    summary: string,
    status: string,
    assignee: Option<string>,
    priority: Option<string>,
    issueType: string,
    parent: Option<ParentRef>)

  datatype TestApproachSection = TestApproachSection(name: string, details: string)

  /** The plan fields the wizard collects and the exporters render. */
  datatype PlanContent = PlanContent(
    testPlanName: string,
    introduction: string,
    projectDisco: string,
    projectName: string,
    testApproach: seq<TestApproachSection>,
    epics: seq<string>,
    jiraResults: seq<JiraIssue>)

  /** A draft plan: its content plus the id and the two timestamps. */
  datatype SavedTestPlan = SavedTestPlan(
    id: string,
    content: PlanContent,
    createdAt: string,
    updatedAt: string)

  /** A published snapshot: a saved plan plus the time it was published. */
  datatype PublishedTestPlan = PublishedTestPlan(plan: SavedTestPlan, publishedAt: string)

  datatype JiraConfig = JiraConfig(instanceUrl: string, email: string, apiToken: string)

  datatype Role = UserRole | AdminRole

  /** An account created on the admin page. */
  datatype RegisteredUser = RegisteredUser(username: string, email: string, role: Role, createdAt: string)

  /** A plan with every field empty: the wizard's starting state. */
  const EMPTY_PLAN := PlanContent("", "", "", "", [], [], [])

  const EMPTY_JIRA_CONFIG := JiraConfig("", "", "")

  const TEST_APPROACH_OPTIONS: seq<string> := ["End to End Testing", "Feature Testing", "UAT"]

  // Keys of the browser's local store.
  const SAVED_TEST_PLANS_KEY := "savedTestPlans"
  const PUBLISHED_TEST_PLANS_KEY := "publishedTestPlans"
  const JIRA_CONFIG_KEY := "jiraConfig"
  const REGISTERED_USERS_KEY := "registeredUsers"

  function PlanId(p: SavedTestPlan): string { p.id }

  function PlanName(p: SavedTestPlan): string { p.content.testPlanName }

  function PublishedId(p: PublishedTestPlan): string { p.plan.id }

  function SectionName(s: TestApproachSection): string { s.name }
}
