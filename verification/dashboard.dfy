/** The figures the dashboard (src/app/dashboard/page.tsx) shows for the
    saved plans: each plan's story count, the totals of epics and stories
    over all plans, and the text of the "load a saved plan" card. */
module Dashboard {
  import opened Types
  import opened Strings

  predicate IsStory(issue: JiraIssue) {
    issue.issueType == "Story"
  }

  /** `jiraResults.filter(r => r.fields.issuetype.name === "Story")`: the
      stories among the results, in their order. */
  function Stories(issues: seq<JiraIssue>): (r: seq<JiraIssue>)
    ensures |r| <= |issues|
    ensures forall x :: x in r <==> x in issues && IsStory(x)
    ensures forall x :: IsStory(x) ==> multiset(r)[x] == multiset(issues)[x]
  {
    if issues == [] then []
    else
      var init := issues[..|issues| - 1];
      var last := issues[|issues| - 1];
      assert issues == init + [last];
      Stories(init) + if IsStory(last) then [last] else []
  }

  /** The story count a plan's card shows. */
  function PlanStoryCount(plan: SavedTestPlan): (n: nat)
    ensures n <= |plan.content.jiraResults|
    ensures n == 0 <==> forall x :: x in plan.content.jiraResults ==> !IsStory(x)
    ensures n == |plan.content.jiraResults| <==> forall x :: x in plan.content.jiraResults ==> IsStory(x)
  {
    var stories := Stories(plan.content.jiraResults);
    StoriesCountAll(plan.content.jiraResults);
    assert stories != [] ==> stories[0] in stories;
    |stories|
  }

  /** Only a list made of stories keeps its full length under the filter. */
  lemma {:induction false} StoriesCountAll(issues: seq<JiraIssue>)
    ensures |Stories(issues)| == |issues| <==> forall x :: x in issues ==> IsStory(x)
  {
    if issues != [] {
      var init := issues[..|issues| - 1];
      var last := issues[|issues| - 1];
      assert issues == init + [last];
      StoriesCountAll(init);
      if forall x :: x in issues ==> IsStory(x) {
        assert forall x :: x in init ==> x in issues;
      }
    }
  }

  /** `savedTestPlans.reduce((sum, plan) => sum + plan.epics.length, 0)`. */
  function TotalEpics(plans: seq<SavedTestPlan>): nat {
    if plans == [] then 0
    else TotalEpics(plans[..|plans| - 1]) + |plans[|plans| - 1].content.epics|
  }

  /** The same fold with each plan's story count. */
  function TotalStories(plans: seq<SavedTestPlan>): nat {
    if plans == [] then 0
    else TotalStories(plans[..|plans| - 1]) + PlanStoryCount(plans[|plans| - 1])
  }

  /** Both totals are additive over the list of plans: the figures of a
      longer list are those of its parts added up. */
  lemma {:induction false} TotalsAppend(a: seq<SavedTestPlan>, b: seq<SavedTestPlan>)
    ensures TotalEpics(a + b) == TotalEpics(a) + TotalEpics(b)
    ensures TotalStories(a + b) == TotalStories(a) + TotalStories(b)
    decreases |b|
  {
    if b == [] {
      assert a + b == a;
    } else {
      var init := b[..|b| - 1];
      assert (a + b)[..|a + b| - 1] == a + init;
      assert (a + b)[|a + b| - 1] == b[|b| - 1];
      TotalsAppend(a, init);
    }
  }

  /** Each plan's figures are part of the totals. */
  lemma {:induction false} TotalsBound(plans: seq<SavedTestPlan>, i: nat)
    requires i < |plans|
    ensures |plans[i].content.epics| <= TotalEpics(plans)
    ensures PlanStoryCount(plans[i]) <= TotalStories(plans)
  {
    var init := plans[..|plans| - 1];
    if i < |plans| - 1 {
      assert plans[i] == init[i];
      TotalsBound(init, i);
    }
  }

  /** The number of tracker results over all plans. */
  function TotalResults(plans: seq<SavedTestPlan>): nat {
    if plans == [] then 0
    else TotalResults(plans[..|plans| - 1]) + |plans[|plans| - 1].content.jiraResults|
  }

  /** The story total never exceeds the number of tracker results kept
      over all plans. */
  lemma {:induction false} TotalStoriesAtMostResults(plans: seq<SavedTestPlan>)
    ensures TotalStories(plans) <= TotalResults(plans)
  {
    if plans != [] {
      TotalStoriesAtMostResults(plans[..|plans| - 1]);
    }
  }

  const NO_PLANS_TEXT := "No saved test plans yet. Create one to get started!"

  /** The text of the load card for `count` saved plans: the invitation when
      there are none, otherwise the count with "plan" made plural unless the
      count is 1. */
  function LoadCardText(count: nat): (text: string)
    ensures count == 0 <==> text == NO_PLANS_TEXT
    ensures count > 0 ==> StartsWith(text, "You have " + NatToString(count))
    ensures count > 0 ==> (EndsWith(text, "plans") <==> count != 1)
    ensures count > 0 ==> EndsWith(text, "plan") || EndsWith(text, "plans")
  {
    if count == 0 then NO_PLANS_TEXT
    else
      var head := "You have " + NatToString(count);
      var text := head + " saved test plan" + (if count != 1 then "s" else "");
      assert text[..|head|] == head;
      assert text[|text| - 1] == (if count != 1 then 's' else 'n');
      assert NO_PLANS_TEXT[|NO_PLANS_TEXT| - 1] == '!';
      assert count == 1 ==> text[|text| - 4..] == "plan";
      assert count != 1 ==> text[|text| - 5..] == "plans";
      text
  }
}
