/** The test-plan wizard (the `Home` component of src/app/page.tsx): its
    state, the step flags that decide which form is on screen, and the event
    handlers that move between steps, edit the plan and keep the saved plans.
    Clocks and generated ids are parameters; the tracker is reached through a
    `Transport` as in the Jira module. */
module Home {
  import opened Types
  import opened Strings
  import opened Seqs
  import opened Storage
  import opened Jira
  import opened Export

  // ---------------------------------------------------------------------
  // Step flags
  // ---------------------------------------------------------------------

  /** The screens of the wizard, one per `show…` flag. */
  datatype Step = NameForm | Title | IntroductionForm | ProjectNameForm | ProjectDiscoForm
                | TestApproachForm | EpicForm | PlanView

  /** The eight `show…` flags of the component. */
  datatype Flags = Flags(
    showNameForm: bool,
    showTitle: bool,
    showIntroductionForm: bool,
    showProjectNameForm: bool,
    showProjectDiscoForm: bool,
    showTestApproachForm: bool,
    showEpicForm: bool,
    showTestPlan: bool)

  /** The state on first render: only the name form. */
  const INITIAL_FLAGS := Flags(true, false, false, false, false, false, false, false)

  predicate IsShown(f: Flags, s: Step) {
    match s
    case NameForm => f.showNameForm
    case Title => f.showTitle
    case IntroductionForm => f.showIntroductionForm
    case ProjectNameForm => f.showProjectNameForm
    case ProjectDiscoForm => f.showProjectDiscoForm
    case TestApproachForm => f.showTestApproachForm
    case EpicForm => f.showEpicForm
    case PlanView => f.showTestPlan
  }

  /** Exactly one screen is on: `s`. */
  predicate OnlyShown(f: Flags, s: Step) {
    IsShown(f, s) && forall t :: t != s ==> !IsShown(f, t)
  }

  /** One `setShow…(b)` call: flag `s` becomes `b`, every other flag stays. */
  function With(f: Flags, s: Step, b: bool): (g: Flags)
    ensures IsShown(g, s) == b
    ensures forall t :: t != s ==> IsShown(g, t) == IsShown(f, t)
  {
    match s
    case NameForm => f.(showNameForm := b)
    case Title => f.(showTitle := b)
    case IntroductionForm => f.(showIntroductionForm := b)
    case ProjectNameForm => f.(showProjectNameForm := b)
    case ProjectDiscoForm => f.(showProjectDiscoForm := b)
    case TestApproachForm => f.(showTestApproachForm := b)
    case EpicForm => f.(showEpicForm := b)
    case PlanView => f.(showTestPlan := b)
  }

  /** A step transition: hide `from`, show `to`. */
  function Handoff(f: Flags, from: Step, to: Step): Flags {
    With(With(f, from, false), to, true)
  }

  /** A transition turns `from` off and `to` on and leaves the other flags,
      so when exactly one screen is on, exactly one screen is on afterwards:
      the next one. */
  lemma HandoffMovesScreen(f: Flags, from: Step, to: Step)
    requires from != to
    ensures forall t :: IsShown(Handoff(f, from, to), t) == (t == to || (t != from && IsShown(f, t)))
    ensures OnlyShown(f, from) ==> OnlyShown(Handoff(f, from, to), to)
  {
  }

  lemma InitialShowsNameForm()
    ensures OnlyShown(INITIAL_FLAGS, NameForm)
  {
  }

  /** The forward path of the wizard, from the name form to the plan: each
      handler hands over to the next screen, so one screen is on at a time. */
  lemma WizardPath(f: Flags)
    requires OnlyShown(f, NameForm)
    ensures var f1 := Handoff(f, NameForm, Title);
      var f2 := Handoff(f1, Title, IntroductionForm);
      var f3 := Handoff(f2, IntroductionForm, ProjectNameForm);
      var f4 := Handoff(f3, ProjectNameForm, ProjectDiscoForm);
      var f5 := Handoff(f4, ProjectDiscoForm, TestApproachForm);
      var f6 := Handoff(f5, TestApproachForm, EpicForm);
      var f7 := Handoff(f6, EpicForm, PlanView);
      OnlyShown(f1, Title) && OnlyShown(f2, IntroductionForm) && OnlyShown(f3, ProjectNameForm)
      && OnlyShown(f4, ProjectDiscoForm) && OnlyShown(f5, TestApproachForm)
      && OnlyShown(f6, EpicForm) && OnlyShown(f7, PlanView)
  {
    var f1 := Handoff(f, NameForm, Title);
    HandoffMovesScreen(f, NameForm, Title);
    var f2 := Handoff(f1, Title, IntroductionForm);
    HandoffMovesScreen(f1, Title, IntroductionForm);
    var f3 := Handoff(f2, IntroductionForm, ProjectNameForm);
    HandoffMovesScreen(f2, IntroductionForm, ProjectNameForm);
    var f4 := Handoff(f3, ProjectNameForm, ProjectDiscoForm);
    HandoffMovesScreen(f3, ProjectNameForm, ProjectDiscoForm);
    var f5 := Handoff(f4, ProjectDiscoForm, TestApproachForm);
    HandoffMovesScreen(f4, ProjectDiscoForm, TestApproachForm);
    var f6 := Handoff(f5, TestApproachForm, EpicForm);
    HandoffMovesScreen(f5, TestApproachForm, EpicForm);
    HandoffMovesScreen(f6, EpicForm, PlanView);
  }

  // ---------------------------------------------------------------------
  // Plan edits as values
  // ---------------------------------------------------------------------

  /** `handleTestApproachSelect`'s new list: the named section is removed
      when some section has that name, else appended with empty details. */
  function Toggle(sections: seq<TestApproachSection>, sectionName: string): (r: seq<TestApproachSection>)
    ensures HasKey(r, SectionName, sectionName) <==> !HasKey(sections, SectionName, sectionName)
    ensures !HasKey(sections, SectionName, sectionName) ==>
      |r| == |sections| + 1 && r[..|sections|] == sections && r[|sections|] == TestApproachSection(sectionName, "")
    ensures UniqueKeys(sections, SectionName) ==> UniqueKeys(r, SectionName)
  {
    if HasKey(sections, SectionName, sectionName) then
      assert UniqueKeys(sections, SectionName) ==> UniqueKeys(RemoveKey(sections, SectionName, sectionName), SectionName) by {
        if UniqueKeys(sections, SectionName) {
          RemoveKeyUnique(sections, SectionName, sectionName);
        }
      }
      RemoveKey(sections, SectionName, sectionName)
    else
      var r := sections + [TestApproachSection(sectionName, "")];
      assert SectionName(r[|sections|]) == sectionName;
      assert r[..|sections|] == sections;
      assert UniqueKeys(sections, SectionName) ==> UniqueKeys(r, SectionName) by {
        if UniqueKeys(sections, SectionName) {
          forall a, b | 0 <= a < b < |r| ensures SectionName(r[a]) != SectionName(r[b]) {
            if b == |sections| {
              assert r[a] == sections[a];
            }
          }
        }
      }
      r
  }

  /** Selecting a section that is not there and selecting it again gives
      back exactly the list it started from. */
  lemma ToggleTwiceRestores(sections: seq<TestApproachSection>, sectionName: string)
    requires !HasKey(sections, SectionName, sectionName)
    ensures Toggle(Toggle(sections, sectionName), sectionName) == sections
  {
    var added := sections + [TestApproachSection(sectionName, "")];
    assert SectionName(added[|sections|]) == sectionName;
    RemoveKeyAppend(sections, [TestApproachSection(sectionName, "")], SectionName, sectionName);
    RemoveKeyAbsent(sections, SectionName, sectionName);
  }

  /** Selecting a section that is there removes every section of that name
      and keeps the others, with their details, in order. */
  lemma ToggleRemovesExactly(sections: seq<TestApproachSection>, sectionName: string, s: TestApproachSection)
    requires HasKey(sections, SectionName, sectionName)
    ensures multiset(Toggle(sections, sectionName))[s]
         == if s.name == sectionName then 0 else multiset(sections)[s]
  {
    RemoveKeyCount(sections, SectionName, sectionName, s);
  }

  /** `handleSaveSectionDetails`'s new list: only the details of section `i`
      change. */
  function WithDetails(sections: seq<TestApproachSection>, i: nat, details: string): (r: seq<TestApproachSection>)
    requires i < |sections|
    ensures |r| == |sections|
    ensures r[i].name == sections[i].name && r[i].details == details
    ensures forall j :: 0 <= j < |r| && j != i ==> r[j] == sections[j]
  {
    sections[i := sections[i].(details := details)]
  }

  /** Editing details keeps the list of names, hence keeps them unique. */
  lemma WithDetailsKeepsNames(sections: seq<TestApproachSection>, i: nat, details: string)
    requires i < |sections|
    ensures forall j :: 0 <= j < |sections| ==> SectionName(WithDetails(sections, i, details)[j]) == SectionName(sections[j])
    ensures UniqueKeys(sections, SectionName) ==> UniqueKeys(WithDetails(sections, i, details), SectionName)
  {
  }

  /** `jiraEmail || username`: the first value unless it is empty. */
  function Fallback(preferred: string, other: string): (r: string)
    ensures r == "" ==> preferred == "" && other == ""
    ensures preferred != "" ==> r == preferred
    ensures preferred == "" ==> r == other
  {
    if preferred != "" then preferred else other
  }

  // ---------------------------------------------------------------------
  // Saving by name
  // ---------------------------------------------------------------------

  /** The record `handleSaveTestPlan` builds: it keeps the id and creation
      time of the plan it replaces, or takes the fresh id and `now`. */
  function PlanToSave(plans: seq<SavedTestPlan>, content: PlanContent, freshId: string, now: string): SavedTestPlan {
    var i := FirstIndex(plans, PlanName, content.testPlanName);
    if i >= 0 then SavedTestPlan(plans[i].id, content, plans[i].createdAt, now)
    else SavedTestPlan(freshId, content, now, now)
  }

  /** `handleSaveTestPlan`'s new collection: replace the first plan with the
      same (untrimmed) name in place, keeping its id and creation time, or
      append a new plan with a fresh id. */
  function SaveByName(plans: seq<SavedTestPlan>, content: PlanContent, freshId: string, now: string): (r: seq<SavedTestPlan>)
    ensures var i := FirstIndex(plans, PlanName, content.testPlanName);
      && (i >= 0 ==>
            && |r| == |plans|
            && r[i] == SavedTestPlan(plans[i].id, content, plans[i].createdAt, now)
            && forall j :: 0 <= j < |plans| && j != i ==> r[j] == plans[j])
      && (i < 0 ==> r == plans + [SavedTestPlan(freshId, content, now, now)])
  {
    Upsert(plans, PlanToSave(plans, content, freshId, now), PlanName)
  }

  /** Saving by name keeps names unique; it keeps ids unique as long as the
      fresh id is not already taken. */
  lemma SaveByNameKeepsKeysUnique(plans: seq<SavedTestPlan>, content: PlanContent, freshId: string, now: string)
    ensures UniqueKeys(plans, PlanName) ==> UniqueKeys(SaveByName(plans, content, freshId, now), PlanName)
    ensures UniqueKeys(plans, PlanId) && !HasKey(plans, PlanId, freshId) ==>
      UniqueKeys(SaveByName(plans, content, freshId, now), PlanId)
  {
    var r := SaveByName(plans, content, freshId, now);
    var i := FirstIndex(plans, PlanName, content.testPlanName);
    if UniqueKeys(plans, PlanId) && !HasKey(plans, PlanId, freshId) {
      forall a, b | 0 <= a < b < |r| ensures PlanId(r[a]) != PlanId(r[b]) {
        if i < 0 && b == |plans| {
          assert PlanId(r[a]) == PlanId(plans[a]);
        }
      }
    }
  }

  /** Saving under a name already used never changes the number of plans,
      and the plan keeps its id: this is an update, whatever the id of the
      current draft. Storage's save replaces by id instead. */
  lemma SaveByNameUpdatesInPlace(plans: seq<SavedTestPlan>, content: PlanContent, freshId: string, now: string, i: nat)
    requires i < |plans| && plans[i].content.testPlanName == content.testPlanName
    requires forall j :: 0 <= j < i ==> plans[j].content.testPlanName != content.testPlanName
    ensures var r := SaveByName(plans, content, freshId, now);
      |r| == |plans| && r[i].id == plans[i].id && r[i].createdAt == plans[i].createdAt && r[i].content == content
  {
    assert HasKey(plans, PlanName, content.testPlanName) by {
      assert PlanName(plans[i]) == content.testPlanName;
    }
  }

  function SaveMessage(name: string, existed: bool): string {
    "Test plan \"" + name + "\" " + (if existed then "updated!" else "saved!")
  }

  // ---------------------------------------------------------------------
  // The tracker search of handleEpicDone
  // ---------------------------------------------------------------------

  const QUERY_ERROR := "Error querying JIRA"
  const EPIC_QUERY_FAILED := "Failed to query JIRA for epics"

  /** How the epic-done handler ends: the results it stores and the error it
      shows ("" for none). */
  datatype Outcome = Outcome(results: seq<JiraIssue>, error: string)

  function InlineStoryRequest(email: string, token: string, epicKey: string): Request {
    Request(StoryJql(epicKey), email, token, None)
  }

  /** The stories the handler's loop collects, or `None` when one of its
      requests throws (the server is unreachable, or a success body is not
      JSON): that ends the whole handler. A failed story search is skipped
      without reading its body. */
  function InlineStories(transport: Transport, email: string, token: string, epics: seq<JiraIssue>): Option<seq<JiraIssue>> {
    if epics == [] then Some([])
    else
      match InlineStories(transport, email, token, epics[..|epics| - 1])
      case None => None
      case Some(acc) =>
        match transport(InlineStoryRequest(email, token, epics[|epics| - 1].key))
        case Unreachable(_) => None
        case Reply(ok, body) =>
          if !ok then Some(acc)
          else match body
            case Malformed(_) => None
            case Json(_, issues) => Some(acc + if issues.Some? then issues.value else [])
  }

  /** An exception part way through aborts the rest of the loop. */
  lemma {:induction false} InlineStoriesAbort(transport: Transport, email: string, token: string, epics: seq<JiraIssue>, i: nat)
    requires i <= |epics|
    requires InlineStories(transport, email, token, epics[..i]).None?
    ensures InlineStories(transport, email, token, epics).None?
    decreases |epics| - i
  {
    if i < |epics| {
      assert epics[..i + 1][..i] == epics[..i];
      InlineStoriesAbort(transport, email, token, epics, i + 1);
    } else {
      assert epics[..i] == epics;
    }
  }

  /** What `handleEpicDone`'s search ends with. It does its own requests, with
      no instance URL, and differs from the library's aggregation in two ways:
      an error response to the epic search gets its own fallback message, and
      any exception, even in a story request, discards everything and shows a
      generic error. */
  function EpicDoneOutcome(transport: Transport, projectName: string, email: string, token: string): (r: Outcome)
    ensures r.error != "" ==> r.results == []
    ensures r.error == "" ==>
      && transport(Request(EpicJql(projectName), email, token, None)).Reply?
      && transport(Request(EpicJql(projectName), email, token, None)).ok
  {
    match transport(Request(EpicJql(projectName), email, token, None))
    case Unreachable(_) => Outcome([], QUERY_ERROR)
    case Reply(ok, body) =>
      match body
      case Malformed(_) => Outcome([], QUERY_ERROR)
      case Json(error, issues) =>
        if !ok then
          Outcome([], if error.Some? && error.value != "" then error.value else EPIC_QUERY_FAILED)
        else
          var epics := if issues.Some? then issues.value else [];
          match InlineStories(transport, email, token, epics)
          case None => Outcome([], QUERY_ERROR)
          case Some(stories) => Outcome(epics + stories, "")
  }

  /** No story request of the loop throws. */
  predicate StoryRequestsSucceed(transport: Transport, email: string, token: string, epics: seq<JiraIssue>) {
    forall e :: e in epics ==>
      var resp := transport(InlineStoryRequest(email, token, e.key));
      resp.Reply? && (resp.ok ==> resp.body.Json?)
  }

  lemma {:induction false} InlineStoriesMatchLibrary(transport: Transport, email: string, token: string, epics: seq<JiraIssue>)
    requires StoryRequestsSucceed(transport, email, token, epics)
    ensures InlineStories(transport, email, token, epics) == Some(StoriesFor(transport, Credentials(email, token, None), epics))
  {
    if epics != [] {
      var init := epics[..|epics| - 1];
      assert StoryRequestsSucceed(transport, email, token, init) by {
        forall e | e in init ensures e in epics { }
      }
      InlineStoriesMatchLibrary(transport, email, token, init);
      var last := epics[|epics| - 1];
      assert last in epics;
      var c := Credentials(email, token, None);
      assert StoryRequest(c, last.key) == InlineStoryRequest(email, token, last.key);
      var resp := transport(InlineStoryRequest(email, token, last.key));
      var mine := InlineStories(transport, email, token, epics);
      var acc := StoriesFor(transport, c, init);
      if resp.ok {
        var issues := resp.body.issues;
        assert FetchJiraIssues(transport, StoryRequest(c, last.key)) == Success(if issues.Some? then issues.value else []);
        assert mine == Some(acc + if issues.Some? then issues.value else []);
      } else {
        assert FetchJiraIssues(transport, StoryRequest(c, last.key)).Failure?;
        assert mine == Some(acc);
        assert StoriesFor(transport, c, epics) == acc + [] == acc;
      }
    }
  }

  /** When the epic search succeeds and no story request throws, the
      handler stores exactly what the library's `fetchJiraProjectData`
      returns for the same credentials. */
  lemma EpicDoneMatchesLibrary(transport: Transport, projectName: string, email: string, token: string)
    requires var resp := transport(Request(EpicJql(projectName), email, token, None));
      resp.Reply? && resp.ok && resp.body.Json?
    requires var body := transport(Request(EpicJql(projectName), email, token, None)).body;
      StoryRequestsSucceed(transport, email, token, if body.issues.Some? then body.issues.value else [])
    ensures var library := ProjectData(transport, projectName, Credentials(email, token, None));
      library.Success? && EpicDoneOutcome(transport, projectName, email, token) == Outcome(library.value, "")
  {
    var body := transport(Request(EpicJql(projectName), email, token, None)).body;
    InlineStoriesMatchLibrary(transport, email, token, if body.issues.Some? then body.issues.value else []);
  }

  /** The story loop of `handleEpicDone`: for each epic in order, search
      its stories and append them to the results, skip a failed search, and
      stop at the first exception (`thrown`). */
  method CollectInlineStories(transport: Transport, email: string, token: string, epics: seq<JiraIssue>)
    returns (allIssues: seq<JiraIssue>, thrown: bool)
    ensures thrown <==> InlineStories(transport, email, token, epics).None?
    ensures !thrown ==> allIssues == epics + InlineStories(transport, email, token, epics).value
  {
    allIssues := epics;
    thrown := false;
    ghost var stories: seq<JiraIssue> := [];
    var i := 0;
    while i < |epics| && !thrown
      invariant 0 <= i <= |epics|
      invariant thrown ==> InlineStories(transport, email, token, epics[..i]).None?
      invariant !thrown ==> InlineStories(transport, email, token, epics[..i]) == Some(stories)
      invariant allIssues == epics + stories
    {
      assert epics[..i + 1][..i] == epics[..i];
      var storyJql := "issuetype = Story AND parent = " + epics[i].key + " ORDER BY created DESC";
      var storyResponse := transport(Request(storyJql, email, token, None));
      match storyResponse {
        case Unreachable(_) =>
          thrown := true;
        case Reply(storyOk, storyBody) =>
          if storyOk {
            if storyBody.Malformed? {
              thrown := true;
            } else {
              var found := if storyBody.issues.Some? then storyBody.issues.value else [];
              allIssues := allIssues + found;
              stories := stories + found;
            }
          }
      }
      i := i + 1;
    }
    if thrown {
      InlineStoriesAbort(transport, email, token, epics, i);
    } else {
      assert epics[..i] == epics;
    }
  }

  /** The search `handleEpicDone` runs: the epic search, then the story loop.
      An exception anywhere, or an epic response that is not JSON, gives the
      generic error and no results. */
  method SearchTracker(transport: Transport, projectName: string, email: string, token: string)
    returns (results: seq<JiraIssue>, error: string)
    ensures Outcome(results, error) == EpicDoneOutcome(transport, projectName, email, token)
  {
    results := [];
    error := "";
    var epicJql := "project = \"" + projectName + "\" AND issuetype = Epic";
    var epicResponse := transport(Request(epicJql, email, token, None));
    match epicResponse {
      case Unreachable(_) =>
        error := QUERY_ERROR;
      case Reply(ok, body) =>
        if body.Malformed? {
          error := QUERY_ERROR;
        } else if !ok {
          error := if body.error.Some? && body.error.value != "" then body.error.value else EPIC_QUERY_FAILED;
        } else {
          var epicsFromJira := if body.issues.Some? then body.issues.value else [];
          var allIssues, thrown := CollectInlineStories(transport, email, token, epicsFromJira);
          if thrown {
            error := QUERY_ERROR;
          } else {
            results := allIssues;
          }
        }
    }
  }

  // ---------------------------------------------------------------------
  // The component
  // ---------------------------------------------------------------------

  /** The state of the `Home` component. The plan fields the wizard collects
      are kept together in `plan`, and the eight step flags in `flags`. */
  class Wizard {
    const store: Store
    var username: string
    var password: string
    var jiraEmail: string
    var jiraApiToken: string
    var plan: PlanContent
    var epic: string
    var jiraLoading: bool
    var jiraError: string
    var flags: Flags
    var savedTestPlans: seq<SavedTestPlan>
    var showSaveModal: bool
    var saveTestPlanName: string
    var saveError: string
    var saveSuccess: string
    var showLoadModal: bool
    var showUpdateSectionModal: bool
    var selectedSectionIndex: Option<nat>
    var sectionDetails: string

    /** First render, with the session's credentials, the tracker settings
        and the saved plans read from the store. */
    constructor (store: Store, username: string, password: string)
      ensures this.store == store && this.username == username && this.password == password
      ensures plan == EMPTY_PLAN && epic == "" && flags == INITIAL_FLAGS
      ensures savedTestPlans == store.GetSavedTestPlans()
      ensures jiraEmail == store.GetJiraConfig().email && jiraApiToken == store.GetJiraConfig().apiToken
      ensures !jiraLoading && jiraError == "" && !showSaveModal && !showLoadModal && !showUpdateSectionModal
      ensures selectedSectionIndex.None? && saveTestPlanName == "" && saveError == "" && saveSuccess == ""
    {
      this.store := store;
      this.username := username;
      this.password := password;
      jiraEmail := store.GetJiraConfig().email;
      jiraApiToken := store.GetJiraConfig().apiToken;
      plan := EMPTY_PLAN;
      epic := "";
      jiraLoading := false;
      jiraError := "";
      flags := INITIAL_FLAGS;
      savedTestPlans := store.GetSavedTestPlans();
      showSaveModal := false;
      saveTestPlanName := "";
      saveError := "";
      saveSuccess := "";
      showLoadModal := false;
      showUpdateSectionModal := false;
      selectedSectionIndex := None;
      sectionDetails := "";
    }

    /** The plan as the save dialog stores it: the wizard's fields under the
        name typed in the dialog. */
    function ContentToSave(): PlanContent
      reads this
    {
      plan.(testPlanName := saveTestPlanName)
    }

    /** `handleSaveTestPlan(freshId, now)`, where `freshId` stands for
        `Date.now().toString()` and `now` for the locale time. A blank name is
        refused with an error; otherwise the plan is saved by name, the
        collection is written to the store and the name input is cleared. The
        dialog's delayed close is not modelled. */
    method HandleSaveTestPlan(freshId: string, now: string)
      modifies this`saveError, this`saveSuccess, this`savedTestPlans, this`saveTestPlanName, store
      ensures Trim(old(saveTestPlanName)) == "" ==>
        && saveError == "Test plan name is required" && saveSuccess == ""
        && savedTestPlans == old(savedTestPlans) && saveTestPlanName == old(saveTestPlanName)
        && store.data == old(store.data)
      ensures Trim(old(saveTestPlanName)) != "" ==>
        && savedTestPlans == SaveByName(old(savedTestPlans), old(ContentToSave()), freshId, now)
        && store.data == old(store.data)[SAVED_TEST_PLANS_KEY := SavedPlans(savedTestPlans)]
        && saveError == ""
        && saveSuccess == SaveMessage(old(saveTestPlanName), HasKey(old(savedTestPlans), PlanName, old(saveTestPlanName)))
        && saveTestPlanName == ""
    {
      saveError := "";
      saveSuccess := "";
      if Trim(saveTestPlanName) == "" {
        saveError := "Test plan name is required";
        return;
      }
      var existingIndex := FirstIndex(savedTestPlans, PlanName, saveTestPlanName);
      var newTestPlan := SavedTestPlan(
        if existingIndex >= 0 then savedTestPlans[existingIndex].id else freshId,
        plan.(testPlanName := saveTestPlanName),
        if existingIndex >= 0 then savedTestPlans[existingIndex].createdAt else now,
        now);
      var updatedPlans := savedTestPlans;
      if existingIndex >= 0 {
        updatedPlans := updatedPlans[existingIndex := newTestPlan];
        saveSuccess := SaveMessage(saveTestPlanName, true);
      } else {
        updatedPlans := updatedPlans + [newTestPlan];
        saveSuccess := SaveMessage(saveTestPlanName, false);
      }
      store.SetItem(SAVED_TEST_PLANS_KEY, SavedPlans(updatedPlans));
      savedTestPlans := updatedPlans;
      saveTestPlanName := "";
    }

    /** `handleLoadTestPlan(planId)`: when a saved plan has that id, its
        fields replace the wizard's and the plan view is shown; otherwise
        nothing happens. */
    method HandleLoadTestPlan(planId: string)
      modifies this`plan, this`showLoadModal, this`flags
      ensures HasKey(savedTestPlans, PlanId, planId) ==>
        && plan == savedTestPlans[FirstIndex(savedTestPlans, PlanId, planId)].content
        && !showLoadModal && flags == With(old(flags), PlanView, true)
      ensures !HasKey(savedTestPlans, PlanId, planId) ==>
        plan == old(plan) && showLoadModal == old(showLoadModal) && flags == old(flags)
    {
      var i := FirstIndex(savedTestPlans, PlanId, planId);
      if i >= 0 {
        plan := savedTestPlans[i].content;
        showLoadModal := false;
        flags := flags.(showTestPlan := true);
      }
    }

    /** `handleDeleteTestPlan(planId)`: drop the plans with that id and write
        the rest to the store. */
    method HandleDeleteTestPlan(planId: string)
      modifies this`savedTestPlans, store
      ensures savedTestPlans == RemoveKey(old(savedTestPlans), PlanId, planId)
      ensures store.data == old(store.data)[SAVED_TEST_PLANS_KEY := SavedPlans(savedTestPlans)]
    {
      var updatedPlans := RemoveKey(savedTestPlans, PlanId, planId);
      store.SetItem(SAVED_TEST_PLANS_KEY, SavedPlans(updatedPlans));
      savedTestPlans := updatedPlans;
    }

    /** `handleNewTestPlan`: every plan field, the epic input and the tracker
        error are cleared, and the wizard is back at the name form. */
    method HandleNewTestPlan()
      modifies this`plan, this`epic, this`jiraError, this`flags
      ensures plan == EMPTY_PLAN && epic == "" && jiraError == ""
      ensures flags == INITIAL_FLAGS
    {
      plan := EMPTY_PLAN;
      epic := "";
      jiraError := "";
      flags := INITIAL_FLAGS;
    }

    /** `handleStartOver`, as written: the same as a new plan, except that the
        test-approach sections and the test-approach flag are left as they
        were. */
    method HandleStartOver()
      modifies this`plan, this`epic, this`jiraError, this`flags
      ensures plan == EMPTY_PLAN.(testApproach := old(plan).testApproach)
      ensures epic == "" && jiraError == ""
      ensures flags == INITIAL_FLAGS.(showTestApproachForm := old(flags).showTestApproachForm)
    {
      plan := plan.(testPlanName := "", introduction := "", projectDisco := "", projectName := "");
      epic := "";
      plan := plan.(epics := [], jiraResults := []);
      jiraError := "";
      flags := flags.(showNameForm := true, showTitle := false, showIntroductionForm := false,
                      showProjectDiscoForm := false, showProjectNameForm := false, showEpicForm := false,
                      showTestPlan := false);
    }

    /** `handleNameSubmit`: a non-blank name moves from the name form to the
        title screen. */
    method HandleNameSubmit()
      modifies this`flags
      ensures flags == if Trim(plan.testPlanName) != "" then Handoff(old(flags), NameForm, Title) else old(flags)
    {
      if Trim(plan.testPlanName) != "" {
        flags := flags.(showNameForm := false);
        flags := flags.(showTitle := true);
      }
    }

    /** The timer `handleNameSubmit` starts: from the title to the
        introduction form. */
    method TitleTimerFires()
      modifies this`flags
      ensures flags == Handoff(old(flags), Title, IntroductionForm)
    {
      flags := flags.(showTitle := false);
      flags := flags.(showIntroductionForm := true);
    }

    /** `handleIntroductionSubmit`: a non-blank introduction moves on to the
        project name. */
    method HandleIntroductionSubmit()
      modifies this`flags
      ensures flags == if Trim(plan.introduction) != "" then Handoff(old(flags), IntroductionForm, ProjectNameForm) else old(flags)
    {
      if Trim(plan.introduction) != "" {
        flags := flags.(showIntroductionForm := false);
        flags := flags.(showProjectNameForm := true);
      }
    }

    /** `handleProjectNameSubmit`: a non-blank project name moves on to the
        project discovery. */
    method HandleProjectNameSubmit()
      modifies this`flags
      ensures flags == if Trim(plan.projectName) != "" then Handoff(old(flags), ProjectNameForm, ProjectDiscoForm) else old(flags)
    {
      if Trim(plan.projectName) != "" {
        flags := flags.(showProjectNameForm := false);
        flags := flags.(showProjectDiscoForm := true);
      }
    }

    /** `handleProjectDiscoSubmit`: on to the test approach, even when the
        discovery text is empty. */
    method HandleProjectDiscoSubmit()
      modifies this`flags
      ensures flags == Handoff(old(flags), ProjectDiscoForm, TestApproachForm)
    {
      flags := flags.(showProjectDiscoForm := false);
      flags := flags.(showTestApproachForm := true);
    }

    /** `handleTestApproachDone`: on to the epics. */
    method HandleTestApproachDone()
      modifies this`flags
      ensures flags == Handoff(old(flags), TestApproachForm, EpicForm)
    {
      flags := flags.(showTestApproachForm := false);
      flags := flags.(showEpicForm := true);
    }

    /** `handleAddMoreEpics`: back from the plan to the epic form, with the
        input cleared. */
    method HandleAddMoreEpics()
      modifies this`epic, this`flags
      ensures epic == "" && flags == Handoff(old(flags), PlanView, EpicForm)
    {
      epic := "";
      flags := flags.(showTestPlan := false);
      flags := flags.(showEpicForm := true);
    }

    /** `handleAddProjectDisco`: back from the plan to the discovery form,
        with the discovery text cleared. */
    method HandleAddProjectDisco()
      modifies this`plan, this`flags
      ensures plan == old(plan).(projectDisco := "")
      ensures flags == Handoff(old(flags), PlanView, ProjectDiscoForm)
    {
      plan := plan.(projectDisco := "");
      flags := flags.(showTestPlan := false);
      flags := flags.(showProjectDiscoForm := true);
    }

    /** `handleProjectDiscoCancel`: skip discovery, clearing its text, and go
        to the epic form. */
    method HandleProjectDiscoCancel()
      modifies this`plan, this`flags
      ensures plan == old(plan).(projectDisco := "")
      ensures flags == Handoff(old(flags), ProjectDiscoForm, EpicForm)
    {
      plan := plan.(projectDisco := "");
      flags := flags.(showProjectDiscoForm := false);
      flags := flags.(showEpicForm := true);
    }

    /** `handleTestApproachSelect(sectionName)`. */
    method HandleTestApproachSelect(sectionName: string)
      modifies this`plan
      ensures plan == old(plan).(testApproach := Toggle(old(plan).testApproach, sectionName))
    {
      var exists_ := exists j | 0 <= j < |plan.testApproach| :: plan.testApproach[j].name == sectionName;
      assert exists_ == HasKey(plan.testApproach, SectionName, sectionName) by {
        if HasKey(plan.testApproach, SectionName, sectionName) {
          var j :| 0 <= j < |plan.testApproach| && SectionName(plan.testApproach[j]) == sectionName;
          assert plan.testApproach[j].name == sectionName;
        }
      }
      if exists_ {
        plan := plan.(testApproach := RemoveKey(plan.testApproach, SectionName, sectionName));
      } else {
        plan := plan.(testApproach := plan.testApproach + [TestApproachSection(sectionName, "")]);
      }
    }

    /** `handleUpdateSection(index)`: open the details dialog on a section of
        the list on screen. */
    method HandleUpdateSection(index: nat)
      requires index < |plan.testApproach|
      modifies this`selectedSectionIndex, this`sectionDetails, this`showUpdateSectionModal
      ensures selectedSectionIndex == Some(index)
      ensures sectionDetails == plan.testApproach[index].details
      ensures showUpdateSectionModal
    {
      selectedSectionIndex := Some(index);
      sectionDetails := plan.testApproach[index].details;
      showUpdateSectionModal := true;
    }

    /** `handleSaveSectionDetails`: store the edited details in the selected
        section and close the dialog. Without a selection nothing happens; a
        selection past the end of the list makes the handler throw before it
        changes anything. */
    method HandleSaveSectionDetails()
      modifies this`plan, this`showUpdateSectionModal, this`selectedSectionIndex, this`sectionDetails
      ensures old(selectedSectionIndex).Some? && old(selectedSectionIndex).value < |old(plan).testApproach| ==>
        && plan == old(plan).(testApproach := WithDetails(old(plan).testApproach, old(selectedSectionIndex).value, old(sectionDetails)))
        && !showUpdateSectionModal && selectedSectionIndex.None? && sectionDetails == ""
      ensures !(old(selectedSectionIndex).Some? && old(selectedSectionIndex).value < |old(plan).testApproach|) ==>
        && plan == old(plan) && showUpdateSectionModal == old(showUpdateSectionModal)
        && selectedSectionIndex == old(selectedSectionIndex) && sectionDetails == old(sectionDetails)
    {
      if selectedSectionIndex.Some? {
        var i := selectedSectionIndex.value;
        if i < |plan.testApproach| {
          var updatedApproach := plan.testApproach;
          updatedApproach := updatedApproach[i := updatedApproach[i].(details := sectionDetails)];
          plan := plan.(testApproach := updatedApproach);
          showUpdateSectionModal := false;
          selectedSectionIndex := None;
          sectionDetails := "";
        }
      }
    }

    /** `handleAddNewEpic`: a non-blank input is appended to the epics (as
        typed, untrimmed) and the input is cleared; a blank one changes
        nothing. */
    method HandleAddNewEpic()
      modifies this`plan, this`epic
      ensures Trim(old(epic)) != "" ==> plan == old(plan).(epics := old(plan).epics + [old(epic)]) && epic == ""
      ensures Trim(old(epic)) == "" ==> plan == old(plan) && epic == old(epic)
    {
      if Trim(epic) != "" {
        plan := plan.(epics := plan.epics + [epic]);
        epic := "";
      }
    }

    /** `handleEpicDone(transport)`: keep a pending epic, leave the epic form,
        search the tracker with the tracker credentials (or the login's when
        those are empty) and show the plan, whatever the search gave. Only the
        state after the handler has finished is modelled. */
    method HandleEpicDone(transport: Transport)
      modifies this`plan, this`flags, this`jiraLoading, this`jiraError
      ensures var outcome := EpicDoneOutcome(transport, old(plan).projectName,
                                             Fallback(jiraEmail, username), Fallback(jiraApiToken, password));
        && plan == old(plan).(epics := if !AllSpace(epic) then old(plan).epics + [epic] else old(plan).epics,
                              jiraResults := outcome.results)
        && jiraError == outcome.error
      ensures flags == Handoff(old(flags), EpicForm, PlanView)
      ensures !jiraLoading
    {
      var epics := if !AllSpace(epic) then plan.epics + [epic] else plan.epics;
      flags := With(flags, EpicForm, false);
      jiraLoading := true;
      jiraError := "";
      var emailToUse := Fallback(jiraEmail, username);
      var tokenToUse := Fallback(jiraApiToken, password);
      var results, error := SearchTracker(transport, plan.projectName, emailToUse, tokenToUse);
      plan := plan.(epics := epics, jiraResults := results);
      jiraError := error;
      flags := With(flags, PlanView, true);
      jiraLoading := false;
    }

    /** The component's own `generateMarkdown`, generated at `generated`:
        the same blocks as export.ts, with the test approach before the
        epics. */
    method GenerateMarkdown(generated: string) returns (content: string)
      ensures content == HomeMarkdown(plan, generated)
    {
      content := "# Test Plan: " + plan.testPlanName + "\n\n";
      content := content + "**Generated:** " + generated + "\n\n";
      ghost var c0 := content;
      content := AppendSection(content, plan, Intro);
      ghost var c1 := content;
      content := AppendSection(content, plan, Discovery);
      ghost var c2 := content;
      content := AppendSection(content, plan, Project);
      ghost var c3 := content;
      content := AppendSection(content, plan, Approach);
      ghost var c4 := content;
      content := AppendSection(content, plan, EpicList);
      ghost var c5 := content;
      content := AppendSection(content, plan, JiraResults);
      SixSections(plan, HOME_ORDER, c0, c1, c2, c3, c4, c5, content);
    }
  }
}
