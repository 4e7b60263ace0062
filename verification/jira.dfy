/** Tracker queries (src/lib/jira.ts): how one search response is turned into
    issues or an error, the two search strings, and the aggregation of a
    project's epics and their stories. The HTTP call is the parameter
    `transport`: a function from the request sent to the response received. */
module Jira {
  import opened Types
  import opened Strings

  /** The JSON body posted to the tracker proxy. */
  datatype Request = Request(jql: string, username: string, password: string, instanceUrl: Option<string>)

  /** A response body: JSON with optional `error` and `issues` fields, or
      text that `response.json()` rejects with the given message. */
  datatype Body = Json(error: Option<string>, issues: Option<seq<JiraIssue>>) | Malformed(message: string)

  /** What `fetch` gives back: a response with its `ok` flag, or the message
      of the exception it throws when the server cannot be reached. */
  datatype Response = Reply(ok: bool, body: Body) | Unreachable(message: string)

  type Transport = Request -> Response

  const QUERY_FAILED := "Failed to query JIRA"

  /** `fetchJiraIssues`: an error response fails with the body's `error`, or
      the fixed message when that is missing or empty; a success returns the
      body's `issues`, or none when the field is missing. A thrown exception
      is passed on with its message. */
  function FetchJiraIssues(transport: Transport, request: Request): (r: Result<seq<JiraIssue>, string>)
    ensures r.Success? <==> transport(request).Reply? && transport(request).ok && transport(request).body.Json?
    ensures r.Success? ==> r.value == (if transport(request).body.issues.Some? then transport(request).body.issues.value else [])
    ensures transport(request).Reply? && !transport(request).ok && transport(request).body.Json? ==>
      var error := transport(request).body.error;
      r == Failure(if error.Some? && error.value != "" then error.value else QUERY_FAILED) && r.error != ""
    ensures transport(request).Unreachable? ==> r == Failure(transport(request).message)
    ensures transport(request).Reply? && transport(request).body.Malformed? ==>
      r == Failure(transport(request).body.message)
  {
    match transport(request)
    case Unreachable(message) => Failure(message)
    case Reply(ok, body) =>
      match body
      case Malformed(message) => Failure(message)
      case Json(error, issues) =>
        if !ok then
          Failure(if error.Some? && error.value != "" then error.value else QUERY_FAILED)
        else
          Success(if issues.Some? then issues.value else [])
  }

  /** The search for a project's epics. The name is inserted as is, between
      double quotes. */
  function EpicJql(projectName: string): string {
    "project = \"" + projectName + "\" AND issuetype = Epic"
  }

  /** The search for an epic's stories, newest first. */
  function StoryJql(epicKey: string): string {
    "issuetype = Story AND parent = " + epicKey + " ORDER BY created DESC"
  }

  /** The project name can be read back from its epic search: it sits between
      the fixed prefix and suffix. Different names give different searches. */
  lemma EpicJqlRecoversName(projectName: string)
    ensures var q := EpicJql(projectName);
      |q| == |projectName| + 33 && q[11..|q| - 22] == projectName
  {
    var q := EpicJql(projectName);
    assert q == "project = \"" + projectName + "\" AND issuetype = Epic";
    assert |"project = \""| == 11 && |"\" AND issuetype = Epic"| == 22;
  }

  lemma EpicJqlInjective(a: string, b: string)
    requires EpicJql(a) == EpicJql(b)
    ensures a == b
  {
    EpicJqlRecoversName(a);
    EpicJqlRecoversName(b);
  }

  /** Likewise the epic key is read back from its story search. */
  lemma StoryJqlRecoversKey(epicKey: string)
    ensures var q := StoryJql(epicKey);
      |q| == |epicKey| + 53 && q[31..|q| - 22] == epicKey
  {
    var q := StoryJql(epicKey);
    assert q == "issuetype = Story AND parent = " + epicKey + " ORDER BY created DESC";
    assert |"issuetype = Story AND parent = "| == 31 && |" ORDER BY created DESC"| == 22;
  }

  lemma StoryJqlInjective(a: string, b: string)
    requires StoryJql(a) == StoryJql(b)
    ensures a == b
  {
    StoryJqlRecoversKey(a);
    StoryJqlRecoversKey(b);
  }

  /** The credentials every request of one aggregation carries. */
  datatype Credentials = Credentials(username: string, password: string, instanceUrl: Option<string>)

  function StoryRequest(c: Credentials, epicKey: string): Request {
    Request(StoryJql(epicKey), c.username, c.password, c.instanceUrl)
  }

  /** The stories of `epic`, or none when their search fails. */
  function StoriesOrNone(transport: Transport, c: Credentials, epic: JiraIssue): seq<JiraIssue> {
    match FetchJiraIssues(transport, StoryRequest(c, epic.key))
    case Success(stories) => stories
    case Failure(_) => []
  }

  /** The stories of each epic, concatenated in epic order. */
  function StoriesFor(transport: Transport, c: Credentials, epics: seq<JiraIssue>): seq<JiraIssue> {
    if epics == [] then []
    else StoriesFor(transport, c, epics[..|epics| - 1]) + StoriesOrNone(transport, c, epics[|epics| - 1])
  }

  /** What `fetchJiraProjectData` resolves to: the epic search's error, or
      the epics followed by their stories. Once the epics are in, the result
      is a success whatever the story searches do. */
  function ProjectData(transport: Transport, projectName: string, c: Credentials): (r: Result<seq<JiraIssue>, string>)
    ensures var epics := FetchJiraIssues(transport, Request(EpicJql(projectName), c.username, c.password, c.instanceUrl));
      && (epics.Failure? ==> r == Failure(epics.error))
      && (epics.Success? ==> r.Success? && |epics.value| <= |r.value| && r.value[..|epics.value|] == epics.value)
  {
    match FetchJiraIssues(transport, Request(EpicJql(projectName), c.username, c.password, c.instanceUrl))
    case Failure(message) => Failure(message)
    case Success(epics) => Success(epics + StoriesFor(transport, c, epics))
  }

  /** Story lists of consecutive runs of epics concatenate. */
  lemma {:induction false} StoriesForAppend(transport: Transport, c: Credentials, a: seq<JiraIssue>, b: seq<JiraIssue>)
    ensures StoriesFor(transport, c, a + b) == StoriesFor(transport, c, a) + StoriesFor(transport, c, b)
    decreases |b|
  {
    if b == [] {
      assert a + b == a;
    } else {
      var init := b[..|b| - 1];
      assert (a + b)[..|a + b| - 1] == a + init;
      assert (a + b)[|a + b| - 1] == b[|b| - 1];
      StoriesForAppend(transport, c, a, init);
    }
  }

  /** An epic whose story search fails adds nothing, and the epics after it
      are still searched: the stories of the others are all there. */
  lemma StoriesForSkipsFailure(transport: Transport, c: Credentials, before: seq<JiraIssue>, epic: JiraIssue, after: seq<JiraIssue>)
    requires FetchJiraIssues(transport, StoryRequest(c, epic.key)).Failure?
    ensures StoriesFor(transport, c, before + [epic] + after)
         == StoriesFor(transport, c, before) + StoriesFor(transport, c, after)
  {
    StoriesForAppend(transport, c, before + [epic], after);
    var withEpic := before + [epic];
    assert withEpic[..|withEpic| - 1] == before && withEpic[|withEpic| - 1] == epic;
    assert StoriesFor(transport, c, withEpic) == StoriesFor(transport, c, before) + [];
  }

  /** Sum of the lengths of the successful story lists. */
  function StoryCount(transport: Transport, c: Credentials, epics: seq<JiraIssue>): nat {
    if epics == [] then 0
    else StoryCount(transport, c, epics[..|epics| - 1]) + |StoriesOrNone(transport, c, epics[|epics| - 1])|
  }

  /** The result holds the epics plus, for each epic, the stories its search
      returned: its length is the number of epics plus the sum of the
      successful story-list lengths. */
  lemma {:induction false} StoriesForLength(transport: Transport, c: Credentials, epics: seq<JiraIssue>)
    ensures |StoriesFor(transport, c, epics)| == StoryCount(transport, c, epics)
  {
    if epics != [] {
      StoriesForLength(transport, c, epics[..|epics| - 1]);
    }
  }

  /** `fetchJiraProjectData` as written: search the epics, then, epic by
      epic, search its stories and append them, skipping a failed search. */
  method FetchJiraProjectData(transport: Transport, projectName: string, username: string, password: string,
                              instanceUrl: Option<string>)
    returns (r: Result<seq<JiraIssue>, string>)
    ensures r == ProjectData(transport, projectName, Credentials(username, password, instanceUrl))
  {
    ghost var c := Credentials(username, password, instanceUrl);
    var epicJql := "project = \"" + projectName + "\" AND issuetype = Epic";
    var epicsResult := FetchJiraIssues(transport, Request(epicJql, username, password, instanceUrl));
    if epicsResult.Failure? {
      return Failure(epicsResult.error);
    }
    var epics := epicsResult.value;
    var allIssues := epics;
    for i := 0 to |epics|
      invariant allIssues == epics + StoriesFor(transport, c, epics[..i])
    {
      assert epics[..i + 1][..i] == epics[..i];
      var storyJql := "issuetype = Story AND parent = " + epics[i].key + " ORDER BY created DESC";
      var stories := FetchJiraIssues(transport, Request(storyJql, username, password, instanceUrl));
      if stories.Success? {
        allIssues := allIssues + stories.value;
      }
    }
    assert epics[..|epics|] == epics;
    r := Success(allIssues);
  }
}
