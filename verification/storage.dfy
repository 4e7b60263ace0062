/** The browser's local store and the plan repository built on it
    (src/lib/storage.ts). Stored values are kept already parsed; a value that
    does not parse as what the reader expects is `Unparsable`. */
module Storage {
  import opened Types
  import opened Seqs

  /** What one key of the store holds, once its JSON text is parsed. */
  datatype Stored =
    | SavedPlans(plans: seq<SavedTestPlan>)
    | PublishedPlans(published: seq<PublishedTestPlan>)
    | JiraSettings(config: JiraConfig, savedAt: Option<string>)
    | UserList(users: seq<RegisteredUser>)
    | UserCredentials(username: string, password: string, email: string)
    | Unparsable

  function AsSavedPlans(v: Stored): Option<seq<SavedTestPlan>> {
    if v.SavedPlans? then Some(v.plans) else None
  }

  function AsPublishedPlans(v: Stored): Option<seq<PublishedTestPlan>> {
    if v.PublishedPlans? then Some(v.published) else None
  }

  function AsJiraConfig(v: Stored): Option<JiraConfig> {
    if v.JiraSettings? then Some(v.config) else None
  }

  /** `localStorage`, seen through the helpers of storage.ts. `inBrowser` is
      false when the code runs where there is no `window` (server side): then
      every read gives its default and every write is dropped. */
  class Store {
    const inBrowser: bool
    var data: map<string, Stored>

    constructor (inBrowser: bool, initial: map<string, Stored>)
      ensures this.inBrowser == inBrowser && data == initial
    {
      this.inBrowser := inBrowser;
      data := initial;
    }

    /** `getStorageItem(key, default)`: the parsed value, or `default` when
        there is no window, the key is missing or its value does not parse. */
    function GetStorageItem<T>(key: string, default: T, parse: Stored -> Option<T>): (r: T)
      reads this
      ensures (!inBrowser || key !in data || parse(data[key]).None?) ==> r == default
      ensures (inBrowser && key in data && parse(data[key]).Some?) ==> r == parse(data[key]).value
    {
      if !inBrowser || key !in data then default
      else match parse(data[key])
        case Some(v) => v
        case None => default
    }

    /** `getSavedTestPlans()`: the draft collection, `[]` when unreadable. */
    function GetSavedTestPlans(): (plans: seq<SavedTestPlan>)
      reads this
      ensures (!inBrowser || SAVED_TEST_PLANS_KEY !in data || !data[SAVED_TEST_PLANS_KEY].SavedPlans?) ==> plans == []
      ensures (inBrowser && SAVED_TEST_PLANS_KEY in data && data[SAVED_TEST_PLANS_KEY].SavedPlans?) ==>
        plans == data[SAVED_TEST_PLANS_KEY].plans
    {
      GetStorageItem(SAVED_TEST_PLANS_KEY, [], AsSavedPlans)
    }

    /** `getPublishedTestPlans()`: the published collection, `[]` when unreadable. */
    function GetPublishedTestPlans(): (plans: seq<PublishedTestPlan>)
      reads this
      ensures (!inBrowser || PUBLISHED_TEST_PLANS_KEY !in data || !data[PUBLISHED_TEST_PLANS_KEY].PublishedPlans?) ==> plans == []
      ensures (inBrowser && PUBLISHED_TEST_PLANS_KEY in data && data[PUBLISHED_TEST_PLANS_KEY].PublishedPlans?) ==>
        plans == data[PUBLISHED_TEST_PLANS_KEY].published
    {
      GetStorageItem(PUBLISHED_TEST_PLANS_KEY, [], AsPublishedPlans)
    }

    /** `getJiraConfig()`: the stored tracker configuration, or the all-empty
        one when unreadable. */
    function GetJiraConfig(): (config: JiraConfig)
      reads this
      ensures (!inBrowser || JIRA_CONFIG_KEY !in data || !data[JIRA_CONFIG_KEY].JiraSettings?) ==> config == EMPTY_JIRA_CONFIG
      ensures (inBrowser && JIRA_CONFIG_KEY in data && data[JIRA_CONFIG_KEY].JiraSettings?) ==>
        config == data[JIRA_CONFIG_KEY].config
    {
      GetStorageItem(JIRA_CONFIG_KEY, EMPTY_JIRA_CONFIG, AsJiraConfig)
    }

    /** `localStorage.setItem`, as the page components call it directly. */
    method SetItem(key: string, v: Stored)
      modifies this
      ensures data == old(data)[key := v]
    {
      data := data[key := v];
    }

    /** `setStorageItem(key, value)`: a write that is dropped without a window. */
    method SetStorageItem(key: string, v: Stored)
      modifies this
      ensures data == if inBrowser then old(data)[key := v] else old(data)
    {
      if inBrowser {
        data := data[key := v];
      }
    }

    /** `removeStorageItem(key)`. */
    method RemoveStorageItem(key: string)
      modifies this
      ensures data == if inBrowser then old(data) - {key} else old(data)
    {
      if inBrowser {
        data := data - {key};
      }
    }

    /** `saveTestPlan(plan)`: update-or-append by id in the draft collection;
        nothing else in the store changes. */
    method SaveTestPlan(plan: SavedTestPlan)
      modifies this
      ensures inBrowser ==> data == old(data)[SAVED_TEST_PLANS_KEY := SavedPlans(Upsert(old(GetSavedTestPlans()), plan, PlanId))]
      ensures !inBrowser ==> data == old(data)
      ensures inBrowser ==> GetSavedTestPlans() == Upsert(old(GetSavedTestPlans()), plan, PlanId)
      ensures GetPublishedTestPlans() == old(GetPublishedTestPlans())
    {
      var plans := GetSavedTestPlans();
      var existingIndex := FirstIndex(plans, PlanId, plan.id);
      if existingIndex >= 0 {
        plans := plans[existingIndex := plan];
      } else {
        plans := plans + [plan];
      }
      SetStorageItem(SAVED_TEST_PLANS_KEY, SavedPlans(plans));
    }

    /** `savePublishedTestPlan(plan)`: the same update-or-append by id, on the
        published collection only; the drafts are untouched. */
    method SavePublishedTestPlan(plan: PublishedTestPlan)
      modifies this
      ensures inBrowser ==> data == old(data)[PUBLISHED_TEST_PLANS_KEY := PublishedPlans(Upsert(old(GetPublishedTestPlans()), plan, PublishedId))]
      ensures !inBrowser ==> data == old(data)
      ensures inBrowser ==> GetPublishedTestPlans() == Upsert(old(GetPublishedTestPlans()), plan, PublishedId)
      ensures GetSavedTestPlans() == old(GetSavedTestPlans())
    {
      var plans := GetPublishedTestPlans();
      var existingIndex := FirstIndex(plans, PublishedId, plan.plan.id);
      if existingIndex >= 0 {
        plans := plans[existingIndex := plan];
      } else {
        plans := plans + [plan];
      }
      SetStorageItem(PUBLISHED_TEST_PLANS_KEY, PublishedPlans(plans));
    }

    /** `deleteTestPlan(planId)`: the drafts without those whose id is
        `planId`, written back over the key. */
    method DeleteTestPlan(planId: string)
      modifies this
      ensures inBrowser ==> data == old(data)[SAVED_TEST_PLANS_KEY := SavedPlans(RemoveKey(old(GetSavedTestPlans()), PlanId, planId))]
      ensures !inBrowser ==> data == old(data)
      ensures inBrowser ==> GetSavedTestPlans() == RemoveKey(old(GetSavedTestPlans()), PlanId, planId)
    {
      var plans := GetSavedTestPlans();
      var filtered := RemoveKey(plans, PlanId, planId);
      SetStorageItem(SAVED_TEST_PLANS_KEY, SavedPlans(filtered));
    }

    /** `saveJiraConfig(instanceUrl, email, apiToken)`. */
    method SaveJiraConfig(instanceUrl: string, email: string, apiToken: string)
      modifies this
      ensures data == if inBrowser then old(data)[JIRA_CONFIG_KEY := JiraSettings(JiraConfig(instanceUrl, email, apiToken), None)] else old(data)
      ensures inBrowser ==> GetJiraConfig() == JiraConfig(instanceUrl, email, apiToken)
    {
      SetStorageItem(JIRA_CONFIG_KEY, JiraSettings(JiraConfig(instanceUrl, email, apiToken), None));
    }
  }
}
