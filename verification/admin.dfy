/** The administration page (src/app/admin/page.tsx): registering accounts
    and saving the tracker connection settings. Both handlers validate their
    form, then either show an error and change nothing else, or write the
    store and show a success message. The clock is a parameter. */
module Admin {
  import opened Types
  import opened Strings
  import opened Seqs
  import opened Storage

  function UserName(u: RegisteredUser): string { u.username }

  /** The administrator rule of the page: decided by the login name alone,
      whatever role was chosen at registration. */
  predicate IsAdmin(username: string) {
    username == "admin" || username == "demo"
  }

  const FIELDS_REQUIRED := "All fields are required"
  const USERNAME_TAKEN := "Username already exists"
  const JIRA_FIELDS_REQUIRED := "All JIRA configuration fields are required"
  const INVALID_JIRA_URL := "Invalid JIRA instance URL"
  const JIRA_SAVED := "JIRA configuration saved successfully!"

  /** The store key under which an account's credentials are kept. */
  function CredentialsKey(username: string): string {
    "user_" + username
  }

  function RegisteredMessage(username: string): string {
    "User " + username + " registered successfully!"
  }

  /** `handleRegisterUser`'s decision: a blank field is refused first, then a
      username already in the list (compared as typed); otherwise the new
      account goes at the end of the list. A field is blank when `trim()`
      leaves nothing, that is when it is all whitespace (`TrimEmptyIffAllSpace`). */
  function Register(users: seq<RegisteredUser>, username: string, email: string, password: string,
                    role: Role, now: string): (r: Result<seq<RegisteredUser>, string>)
    ensures (AllSpace(username) || AllSpace(email) || AllSpace(password)) ==> r == Failure(FIELDS_REQUIRED)
    ensures r.Success? <==>
      !AllSpace(username) && !AllSpace(email) && !AllSpace(password) && !HasKey(users, UserName, username)
    ensures !AllSpace(username) && !AllSpace(email) && !AllSpace(password) && HasKey(users, UserName, username) ==>
      r == Failure(USERNAME_TAKEN)
    ensures r.Success? ==>
      |r.value| == |users| + 1 && r.value[..|users|] == users && r.value[|users|] == RegisteredUser(username, email, role, now)
  {
    if AllSpace(username) || AllSpace(email) || AllSpace(password) then Failure(FIELDS_REQUIRED)
    else if HasKey(users, UserName, username) then Failure(USERNAME_TAKEN)
    else
      var r := users + [RegisteredUser(username, email, role, now)];
      assert r[..|users|] == users;
      Success(r)
  }

  /** Registration never lets two accounts share a username. */
  lemma RegisterKeepsUsernamesUnique(users: seq<RegisteredUser>, username: string, email: string,
                                     password: string, role: Role, now: string)
    requires UniqueKeys(users, UserName)
    ensures var r := Register(users, username, email, password, role, now);
      r.Success? ==> UniqueKeys(r.value, UserName)
  {
    var r := Register(users, username, email, password, role, now);
    if r.Success? {
      forall a, b | 0 <= a < b < |r.value| ensures UserName(r.value[a]) != UserName(r.value[b]) {
        assert r.value[a] == users[a];
        if b < |users| {
          assert r.value[b] == users[b];
        } else {
          assert UserName(r.value[b]) == username;
        }
      }
    }
  }

  /** `handleSaveJiraConfig`'s decision: every field must be non-blank and
      the URL, as typed, must contain "atlassian.net"; an accepted setting is
      stored with each field trimmed and the time it was saved. */
  function ValidateJiraConfig(instanceUrl: string, email: string, apiToken: string, now: string): (r: Result<Stored, string>)
    ensures r.Success? <==>
      !AllSpace(instanceUrl) && !AllSpace(email) && !AllSpace(apiToken) && Contains(instanceUrl, "atlassian.net")
    ensures (AllSpace(instanceUrl) || AllSpace(email) || AllSpace(apiToken)) ==> r == Failure(JIRA_FIELDS_REQUIRED)
    ensures !AllSpace(instanceUrl) && !AllSpace(email) && !AllSpace(apiToken) && !Contains(instanceUrl, "atlassian.net") ==>
      r == Failure(INVALID_JIRA_URL)
    ensures r.Success? ==>
      r.value == JiraSettings(JiraConfig(Trim(instanceUrl), Trim(email), Trim(apiToken)), Some(now))
  {
    if AllSpace(instanceUrl) || AllSpace(email) || AllSpace(apiToken) then Failure(JIRA_FIELDS_REQUIRED)
    else if !Contains(instanceUrl, "atlassian.net") then Failure(INVALID_JIRA_URL)
    else Success(JiraSettings(JiraConfig(Trim(instanceUrl), Trim(email), Trim(apiToken)), Some(now)))
  }

  /** What an accepted setting stores is itself valid: its fields are
      non-blank and already trimmed, and trimming did not cut the domain out
      of the URL. */
  lemma AcceptedConfigIsValid(instanceUrl: string, email: string, apiToken: string, now: string)
    requires ValidateJiraConfig(instanceUrl, email, apiToken, now).Success?
    ensures var c := ValidateJiraConfig(instanceUrl, email, apiToken, now).value.config;
      && c.instanceUrl != "" && c.email != "" && c.apiToken != ""
      && Trim(c.instanceUrl) == c.instanceUrl && Trim(c.email) == c.email && Trim(c.apiToken) == c.apiToken
      && Contains(c.instanceUrl, "atlassian.net")
  {
    var c := ValidateJiraConfig(instanceUrl, email, apiToken, now).value.config;
    assert c == JiraConfig(Trim(instanceUrl), Trim(email), Trim(apiToken));
    TrimmedField(instanceUrl);
    TrimmedField(email);
    TrimmedField(apiToken);
    UrlKeepsDomain(instanceUrl);
  }

  /** A non-blank field trims to a non-empty value that trimming leaves
      alone. */
  lemma TrimmedField(s: string)
    requires !AllSpace(s)
    ensures Trim(s) != "" && Trim(Trim(s)) == Trim(s)
  {
    TrimEmptyIffAllSpace(s);
    TrimIdempotent(s);
  }

  /** Trimming the URL keeps the domain it contains. */
  lemma UrlKeepsDomain(url: string)
    requires Contains(url, "atlassian.net")
    ensures Contains(Trim(url), "atlassian.net")
  {
    assert "atlassian.net"[0] == 'a' && "atlassian.net"[12] == 't';
    TrimKeepsWord(url, "atlassian.net");
  }

  /** The state of the administration page. */
  class AdminPanel {
    const store: Store
    var registeredUsers: seq<RegisteredUser>
    var newUsername: string
    var newEmail: string
    var newPassword: string
    var newRole: Role
    var registrationError: string
    var registrationSuccess: string
    var jiraInstanceUrl: string
    var jiraEmail: string
    var jiraApiToken: string
    var jiraConfigError: string
    var jiraConfigSuccess: string

    /** The page once its mount effect has run: the account list and the
        tracker settings are read from the store (a missing field reads as
        empty), the forms are empty and the role is "user". */
    constructor (store: Store)
      ensures this.store == store
      ensures registeredUsers == if REGISTERED_USERS_KEY in store.data && store.data[REGISTERED_USERS_KEY].UserList?
                                 then store.data[REGISTERED_USERS_KEY].users else []
      ensures (JIRA_CONFIG_KEY in store.data && store.data[JIRA_CONFIG_KEY].JiraSettings?) ==>
        JiraConfig(jiraInstanceUrl, jiraEmail, jiraApiToken) == store.data[JIRA_CONFIG_KEY].config
      ensures !(JIRA_CONFIG_KEY in store.data && store.data[JIRA_CONFIG_KEY].JiraSettings?) ==>
        jiraInstanceUrl == "" && jiraEmail == "" && jiraApiToken == ""
      ensures newUsername == "" && newEmail == "" && newPassword == "" && newRole == UserRole
      ensures registrationError == "" && registrationSuccess == "" && jiraConfigError == "" && jiraConfigSuccess == ""
    {
      this.store := store;
      registeredUsers := [];
      if REGISTERED_USERS_KEY in store.data && store.data[REGISTERED_USERS_KEY].UserList? {
        registeredUsers := store.data[REGISTERED_USERS_KEY].users;
      }
      jiraInstanceUrl := "";
      jiraEmail := "";
      jiraApiToken := "";
      if JIRA_CONFIG_KEY in store.data && store.data[JIRA_CONFIG_KEY].JiraSettings? {
        var config := store.data[JIRA_CONFIG_KEY].config;
        jiraInstanceUrl := config.instanceUrl;
        jiraEmail := config.email;
        jiraApiToken := config.apiToken;
      }
      newUsername := "";
      newEmail := "";
      newPassword := "";
      newRole := UserRole;
      registrationError := "";
      registrationSuccess := "";
      jiraConfigError := "";
      jiraConfigSuccess := "";
    }

    /** `handleRegisterUser(now)`. A refused registration shows its error and
        changes nothing else. An accepted one appends the account, writes the
        list and the account's credentials to the store, shows the success
        message and clears the form. The delayed close of the form is not
        modelled. */
    method HandleRegisterUser(now: string)
      modifies this`registeredUsers, this`newUsername, this`newEmail, this`newPassword, this`newRole
      modifies this`registrationError, this`registrationSuccess, store
      ensures var r := Register(old(registeredUsers), old(newUsername), old(newEmail), old(newPassword), old(newRole), now);
        && (r.Failure? ==>
              && registrationError == r.error && registrationSuccess == ""
              && registeredUsers == old(registeredUsers) && store.data == old(store.data)
              && newUsername == old(newUsername) && newEmail == old(newEmail)
              && newPassword == old(newPassword) && newRole == old(newRole))
        && (r.Success? ==>
              && registeredUsers == r.value
              && store.data == old(store.data)[REGISTERED_USERS_KEY := UserList(r.value)]
                                               [CredentialsKey(old(newUsername)) := UserCredentials(old(newUsername), old(newPassword), old(newEmail))]
              && registrationError == "" && registrationSuccess == RegisteredMessage(old(newUsername))
              && newUsername == "" && newEmail == "" && newPassword == "" && newRole == UserRole)
    {
      registrationError := "";
      registrationSuccess := "";
      if AllSpace(newUsername) || AllSpace(newEmail) || AllSpace(newPassword) {
        registrationError := FIELDS_REQUIRED;
        return;
      }
      if exists j | 0 <= j < |registeredUsers| :: registeredUsers[j].username == newUsername {
        registrationError := USERNAME_TAKEN;
        return;
      }
      assert !HasKey(registeredUsers, UserName, newUsername);
      var newUser := RegisteredUser(newUsername, newEmail, newRole, now);
      var updatedUsers := registeredUsers + [newUser];
      assert Register(registeredUsers, newUsername, newEmail, newPassword, newRole, now) == Success(updatedUsers);
      registeredUsers := updatedUsers;
      store.SetItem(REGISTERED_USERS_KEY, UserList(updatedUsers));
      store.SetItem(CredentialsKey(newUsername), UserCredentials(newUsername, newPassword, newEmail));
      registrationSuccess := RegisteredMessage(newUsername);
      newUsername := "";
      newEmail := "";
      newPassword := "";
      newRole := UserRole;
    }

    /** `handleSaveJiraConfig(now)`. A refused setting shows its error and
        leaves the store alone; an accepted one is written under the tracker
        key and the success message is shown. The form keeps what was typed. */
    method HandleSaveJiraConfig(now: string)
      modifies this`jiraConfigError, this`jiraConfigSuccess, store
      ensures var r := ValidateJiraConfig(old(jiraInstanceUrl), old(jiraEmail), old(jiraApiToken), now);
        && (r.Failure? ==> jiraConfigError == r.error && jiraConfigSuccess == "" && store.data == old(store.data))
        && (r.Success? ==>
              && store.data == old(store.data)[JIRA_CONFIG_KEY := r.value]
              && jiraConfigError == "" && jiraConfigSuccess == JIRA_SAVED)
      ensures store.inBrowser && ValidateJiraConfig(old(jiraInstanceUrl), old(jiraEmail), old(jiraApiToken), now).Success? ==>
        store.GetJiraConfig() == JiraConfig(Trim(old(jiraInstanceUrl)), Trim(old(jiraEmail)), Trim(old(jiraApiToken)))
    {
      jiraConfigError := "";
      jiraConfigSuccess := "";
      if AllSpace(jiraInstanceUrl) || AllSpace(jiraEmail) || AllSpace(jiraApiToken) {
        jiraConfigError := JIRA_FIELDS_REQUIRED;
        return;
      }
      if !Contains(jiraInstanceUrl, "atlassian.net") {
        jiraConfigError := INVALID_JIRA_URL;
        return;
      }
      var jiraConfig := JiraConfig(Trim(jiraInstanceUrl), Trim(jiraEmail), Trim(jiraApiToken));
      store.SetItem(JIRA_CONFIG_KEY, JiraSettings(jiraConfig, Some(now)));
      jiraConfigSuccess := JIRA_SAVED;
    }
  }
}
