/** The Jira connector of `connectors/mcp_atlassian.py`: a client built from the
    settings that hands out a placeholder ticket once it is configured. */
module AtlassianConnector {
  import opened Wrappers
  import opened Text
  import Config

  /** A Jira ticket; `NewTicket` gives the constructor's defaults. */
  datatype JiraTicket = JiraTicket(
    key: string, summary: string, description: string,
    status: string, priority: string, issueType: string)

  /** `JiraTicket(key, summary)`: description, status, priority and issue type default to "". */
  function NewTicket(key: string, summary: string): (t: JiraTicket)
    ensures t.key == key && t.summary == summary
    ensures t.description == "" && t.status == "" && t.priority == "" && t.issueType == ""
  {
    JiraTicket(key, summary, "", "", "", "")
  }

  /** The client's connection settings (the timeout is not modelled). */
  datatype AtlassianClient = AtlassianClient(
    serverUrl: Option<string>, apiToken: Option<string>, email: Option<string>, enabled: bool)

  /** `MCPAtlassianClient()`: the values are copied from the settings. */
  function ClientFromSettings(s: Config.Settings): (c: AtlassianClient)
    ensures IsConfigured(c) <==>
      (s.mcpEnabled && s.mcpAtlassianServerUrl.Some? &&
       s.mcpAtlassianApiToken.Some? && s.mcpAtlassianEmail.Some?)
  {
    AtlassianClient(s.mcpAtlassianServerUrl, s.mcpAtlassianApiToken, s.mcpAtlassianEmail, s.mcpEnabled)
  }

  /** `is_configured`: enabled, with a server URL, a token and an email present (an
      empty value counts as present). */
  predicate IsConfigured(c: AtlassianClient) {
    c.enabled && c.serverUrl.Some? && c.apiToken.Some? && c.email.Some?
  }

  const MockDescription := "This is a placeholder description retrieved via MCP"

  /** `get_ticket`: nothing when unconfigured or given an empty id; else the placeholder
      ticket, keyed by the id. */
  function GetTicket(c: AtlassianClient, ticketId: string): (r: Option<JiraTicket>)
    ensures r.None? <==> !IsConfigured(c) || ticketId == ""
    ensures r.Some? ==> r.value.key == ticketId && r.value.summary == "Mock ticket for " + ticketId
    ensures r.Some? ==>
      (r.value.status == "To Do" && r.value.priority == "Medium" &&
       r.value.issueType == "Task" && r.value.description == MockDescription)
  {
    if !IsConfigured(c) then None
    else if ticketId == "" then None
    else Some(JiraTicket(
      key := ticketId,
      summary := "Mock ticket for " + ticketId,
      description := MockDescription,
      status := "To Do",
      priority := "Medium",
      issueType := "Task"))
  }

  /** `search_tickets`: no ticket is ever found, configured or not. */
  function SearchTickets(c: AtlassianClient, jql: string, maxResults: int): (r: seq<JiraTicket>)
    ensures r == []
  {
    []
  }

  /** `get_jira_ticket_info`: the lookup through the client built from the settings. */
  function JiraTicketInfo(s: Config.Settings, ticketId: string): (r: Option<JiraTicket>)
    ensures r.None? <==> !IsConfigured(ClientFromSettings(s)) || ticketId == ""
    ensures r.Some? ==> r.value.key == ticketId
  {
    GetTicket(ClientFromSettings(s), ticketId)
  }

  /** A client from the environment is configured exactly when `MCP_ENABLED` is on and
      the server URL, token and email variables are all set. */
  lemma ConfiguredFromEnvironment(env: Config.Env)
    ensures IsConfigured(ClientFromSettings(Config.LoadSettings(env))) <==>
      Config.Flag(env, "MCP_ENABLED") &&
      Config.Prefix + "MCP_ATLASSIAN_SERVER_URL" in env &&
      Config.Prefix + "MCP_ATLASSIAN_API_TOKEN" in env &&
      Config.Prefix + "MCP_ATLASSIAN_EMAIL" in env
  {
  }

  /** With nothing set in the environment no ticket is retrieved; with the flag on and
      the three variables set, a non-empty id yields its placeholder ticket. */
  lemma TicketFromEnvironment(env: Config.Env, ticketId: string)
    ensures JiraTicketInfo(Config.LoadSettings(map[]), ticketId).None?
    ensures Config.Flag(env, "MCP_ENABLED") && ticketId != "" &&
            Config.Prefix + "MCP_ATLASSIAN_SERVER_URL" in env &&
            Config.Prefix + "MCP_ATLASSIAN_API_TOKEN" in env &&
            Config.Prefix + "MCP_ATLASSIAN_EMAIL" in env ==>
      JiraTicketInfo(Config.LoadSettings(env), ticketId).Some? &&
      JiraTicketInfo(Config.LoadSettings(env), ticketId).value.key == ticketId
  {
    Config.EmptyEnvironmentDefaults();
    ConfiguredFromEnvironment(env);
  }
}
