/** The discovery engine as the stateful object it is: a clock, an HTTP
    session that plays a script of exchanges, and the `SentryDiscovery`
    object whose methods follow the source method by method. Every method is
    proved to produce exactly what the functions of module DiscoverySpec
    describe, so the properties proved there hold of these methods. */
module Discovery {
  import opened Values
  import opened DiscoverySpec

  /** The wall clock (in milliseconds) and `time.sleep`, which records each sleep. */
  class Clock {
    var now: int
    var waits: seq<int>

    constructor (start: int)
      ensures now == start && waits == []
    {
      now := start;
      waits := [];
    }

    method Sleep(ms: int)
      requires ms >= 0
      modifies this
      ensures now == old(now) + ms && waits == old(waits) + [ms]
    {
      now := now + ms;
      waits := waits + [ms];
    }
  }

  /** The HTTP session: it answers with the scripted exchanges in order, each
      taking its latency on the clock, and with a connection error once the
      script is used up. */
  class Session {
    var script: seq<Exchange>
    var sent: seq<string>

    constructor (script: seq<Exchange>)
      ensures this.script == script && sent == []
    {
      this.script := script;
      sent := [];
    }

    method Get(url: string, clock: Clock) returns (outcome: Outcome)
      modifies this, clock
      ensures sent == old(sent) + [url] && clock.waits == old(clock.waits)
      ensures old(script) == [] ==> outcome == ConnError && script == [] && clock.now == old(clock.now)
      ensures old(script) != [] ==>
        outcome == old(script)[0].outcome && script == old(script)[1..]
        && clock.now == old(clock.now) + old(script)[0].latencyMs
    {
      sent := sent + [url];
      if script == [] {
        outcome := ConnError;
      } else {
        outcome := script[0].outcome;
        clock.now := clock.now + script[0].latencyMs;
        script := script[1..];
      }
    }
  }

  class SentryDiscovery {
    const api: Api
    const session: Session
    const clock: Clock
    var lastRequestTime: int
    ghost var calls: seq<string>

    /** The world that the functions of DiscoverySpec describe. */
    ghost function State(): World
      reads this, session, clock
    {
      World(clock.now, lastRequestTime, session.script, session.sent, clock.waits, calls)
    }

    /** `__init__`: the base URL loses its trailing slashes and no request has
        been made yet. */
    constructor (baseUrl: string, retryAttempts: int, session: Session, clock: Clock)
      ensures api == MakeApi(baseUrl, retryAttempts) && this.session == session && this.clock == clock
      ensures lastRequestTime == 0 && calls == []
    {
      api := MakeApi(baseUrl, retryAttempts);
      this.session := session;
      this.clock := clock;
      lastRequestTime := 0;
      calls := [];
    }

    /** The rate limiter at the top of every attempt. */
    method WaitForRateLimit()
      modifies clock
      ensures State() == Throttle(old(State()))
    {
      var sinceLast := clock.now - lastRequestTime;
      if sinceLast < MinIntervalMs {
        clock.Sleep(MinIntervalMs - sinceLast);
      }
    }

    /** The handling of one outcome of `session.get`. */
    method Handle(url: string, attempt: nat, outcome: Outcome) returns (step: Step)
      modifies this, clock
      ensures Turn(step, State()) == Classify(api, url, attempt, outcome, old(State()))
    {
      match outcome
      case Response(status, body, text, reason, retryAfter) =>
        lastRequestTime := clock.now;
        if status == 200 {
          step := Done(Success(body));
        } else if status == 204 || status == 404 {
          step := Done(Success(EmptyObj));
        } else if status == 429 {
          var seconds := if retryAfter.Some? then retryAfter.value else DefaultRetryAfterSeconds;
          if seconds < 0 {
            step := Done(Failure(ValueError(SleepNegative)));
          } else {
            clock.Sleep(seconds * 1000);
            step := Retry;
          }
        } else if status == 401 || status == 403 {
          step := Done(Failure(ApiError(AuthFailed(status, text), Some(status), Some(text))));
        } else if 400 <= status < 600 {
          step := Done(Failure(ApiError("Request failed: " + HttpErrorMessage(status, reason, url), None, None)));
        } else {
          step := Retry;
        }
      case Timeout =>
        if attempt < api.retryAttempts {
          clock.Sleep(Pow2(attempt) * 1000);
          step := Retry;
        } else {
          step := Done(Failure(ApiError(TimeoutMessage(api.retryAttempts), None, None)));
        }
      case ConnError =>
        if attempt < api.retryAttempts {
          clock.Sleep(Pow2(attempt) * 1000);
          step := Retry;
        } else {
          step := Done(Failure(ApiError(ConnectionMessage(api.retryAttempts), None, None)));
        }
      case OtherRequestError(detail) =>
        step := Done(Failure(ApiError("Request failed: " + detail, None, None)));
    }

    /** One iteration of the attempt loop of `_make_request`. */
    method AttemptRequest(url: string, attempt: nat) returns (step: Step)
      modifies this, session, clock
      ensures Turn(step, State()) == Attempt(api, url, attempt, old(State()))
    {
      WaitForRateLimit();
      ghost var throttled := State();
      var outcome := session.Get(url, clock);
      assert outcome == Send(throttled, url).outcome && State() == Send(throttled, url).world;
      step := Handle(url, attempt, outcome);
    }

    /** The attempt loop of `_make_request`. */
    method RetryLoop(url: string) returns (r: Result<Json, Error>)
      modifies this, session, clock
      ensures Reply(r, State()) == RequestFrom(api, url, 0, old(State()))
    {
      var attempt: nat := 0;
      while attempt <= api.retryAttempts
        invariant RequestFrom(api, url, attempt, State()) == RequestFrom(api, url, 0, old(State()))
        decreases api.retryAttempts + 1 - attempt
      {
        ghost var before := State();
        var step := AttemptRequest(url, attempt);
        if step.Done? {
          return step.result;
        }
        assert RequestFrom(api, url, attempt, before) == RequestFrom(api, url, attempt + 1, State());
        attempt := attempt + 1;
      }
      return Failure(ApiError(ExhaustedMessage(api.retryAttempts), None, None));
    }

    /** `_make_request`. */
    method MakeRequest(endpoint: string) returns (r: Result<Json, Error>)
      modifies this, session, clock
      ensures Reply(r, State()) == Request(api, endpoint, old(State()))
    {
      calls := calls + [endpoint];
      r := RetryLoop(Url(api.baseUrl, endpoint));
    }

    /** `get_organizations`. */
    method GetOrganizations() returns (r: Result<seq<Organization>, Error>)
      modifies this, session, clock
      ensures Reply(r, State()) == Organizations(api, old(State()))
    {
      var data := MakeRequest("/organizations/");
      if data.Failure? {
        return Failure(data.error);
      }
      if !data.value.JArr? {
        return Success([]);
      }
      r := CollectOrganizations(data.value.arr);
    }

    /** The list requests of `get_team_members` and `get_project_teams`. */
    method GetList(endpoint: string) returns (r: Result<seq<Json>, Error>)
      modifies this, session, clock
      ensures Reply(r, State()) == ListRequest(api, endpoint, old(State()))
    {
      var data := MakeRequest(endpoint);
      if data.Failure? {
        return Failure(data.error);
      }
      if !data.value.JArr? {
        return Success([]);
      }
      return Success(data.value.arr);
    }

    /** `get_team_members`. */
    method GetTeamMembers(orgSlug: Json, teamSlug: Json) returns (r: Result<seq<Json>, Error>)
      modifies this, session, clock
      ensures Reply(r, State()) == TeamMembers(api, orgSlug, teamSlug, old(State()))
    {
      r := GetList(MembersEndpoint(orgSlug, teamSlug));
    }

    /** `get_project_teams`. */
    method GetProjectTeams(orgSlug: Json, projectSlug: Json) returns (r: Result<seq<Json>, Error>)
      modifies this, session, clock
      ensures Reply(r, State()) == ProjectTeams(api, orgSlug, projectSlug, old(State()))
    {
      r := GetList(ProjectTeamsEndpoint(orgSlug, projectSlug));
    }

    /** `get_project_details`. */
    method GetProjectDetails(orgSlug: Json, projectSlug: Json) returns (r: Result<Json, Error>)
      modifies this, session, clock
      ensures Reply(r, State()) == ProjectDetails(api, orgSlug, projectSlug, old(State()))
    {
      r := MakeRequest(ProjectDetailsEndpoint(orgSlug, projectSlug));
    }

    /** The body of the loop of `get_teams`: one team and its members. */
    method BuildTeam(orgSlug: Json, item: Json) returns (r: Result<Team, Error>)
      modifies this, session, clock
      ensures Reply(r, State()) == TeamEntry(api, orgSlug, item, old(State()))
    {
      if !item.JObj? {
        return Failure(TypeError);
      }
      if "slug" !in item.obj {
        return Failure(KeyError("slug"));
      }
      var members := GetTeamMembers(orgSlug, item.obj["slug"]);
      if members.Failure? {
        return Failure(members.error);
      }
      r := MakeTeam(orgSlug, item.obj, members.value);
    }

    /** One turn of the loop of `get_teams`: the team at `i`, behind the
        teams already collected. */
    method NextTeam(orgSlug: Json, items: seq<Json>, i: nat, ghost collected: seq<Team>)
      returns (r: Result<Team, Error>)
      requires i < |items|
      modifies this, session, clock
      ensures PrependAll(collected, TeamsFrom(api, orgSlug, items[i..], old(State()))) ==
        if r.Failure? then Reply(Failure(r.error), State())
        else PrependAll(collected + [r.value], TeamsFrom(api, orgSlug, items[i + 1..], State()))
    {
      ghost var before := State();
      r := BuildTeam(orgSlug, items[i]);
      if r.Failure? {
        TeamsFromFails(api, orgSlug, items, i, before, r.error, State());
      } else {
        TeamsFromStep(api, orgSlug, items, i, before, r.value, State());
        PrependAllStep(collected, r.value, TeamsFrom(api, orgSlug, items[i + 1..], State()));
      }
    }

    /** The loop of `get_teams`. */
    method CollectTeams(orgSlug: Json, items: seq<Json>) returns (r: Result<seq<Team>, Error>)
      modifies this, session, clock
      ensures Reply(r, State()) == TeamsFrom(api, orgSlug, items, old(State()))
    {
      var teams: seq<Team> := [];
      var i := 0;
      assert items[0..] == items;
      PrependNothing(TeamsFrom(api, orgSlug, items, State()));
      while i < |items|
        invariant 0 <= i <= |items|
        invariant TeamsFrom(api, orgSlug, items, old(State())) == PrependAll(teams, TeamsFrom(api, orgSlug, items[i..], State()))
      {
        var team := NextTeam(orgSlug, items, i, teams);
        if team.Failure? {
          return Failure(team.error);
        }
        teams := teams + [team.value];
        i := i + 1;
      }
      assert items[i..] == [] && teams + [] == teams;
      return Success(teams);
    }

    /** `get_teams`. */
    method GetTeams(orgSlug: Json) returns (r: Result<seq<Team>, Error>)
      modifies this, session, clock
      ensures Reply(r, State()) == Teams(api, orgSlug, old(State()))
    {
      var data := MakeRequest(TeamsEndpoint(orgSlug));
      if data.Failure? {
        return Failure(data.error);
      }
      if !data.value.JArr? {
        return Success([]);
      }
      r := CollectTeams(orgSlug, data.value.arr);
    }

    /** The body of the loop of `get_projects`: one project, its teams and its details. */
    method BuildProject(orgSlug: Json, item: Json) returns (r: Result<Project, Error>)
      modifies this, session, clock
      ensures Reply(r, State()) == ProjectEntry(api, orgSlug, item, old(State()))
    {
      if !item.JObj? {
        return Failure(TypeError);
      }
      if "slug" !in item.obj {
        return Failure(KeyError("slug"));
      }
      var teams := GetProjectTeams(orgSlug, item.obj["slug"]);
      if teams.Failure? {
        return Failure(teams.error);
      }
      var details := GetProjectDetails(orgSlug, item.obj["slug"]);
      if details.Failure? {
        return Failure(details.error);
      }
      r := MakeProject(orgSlug, item.obj, teams.value, details.value);
    }

    /** One turn of the loop of `get_projects`: the project at `i`, behind
        the projects already collected. */
    method NextProject(orgSlug: Json, items: seq<Json>, i: nat, ghost collected: seq<Project>)
      returns (r: Result<Project, Error>)
      requires i < |items|
      modifies this, session, clock
      ensures PrependAll(collected, ProjectsFrom(api, orgSlug, items[i..], old(State()))) ==
        if r.Failure? then Reply(Failure(r.error), State())
        else PrependAll(collected + [r.value], ProjectsFrom(api, orgSlug, items[i + 1..], State()))
    {
      ghost var before := State();
      r := BuildProject(orgSlug, items[i]);
      if r.Failure? {
        ProjectsFromFails(api, orgSlug, items, i, before, r.error, State());
      } else {
        ProjectsFromStep(api, orgSlug, items, i, before, r.value, State());
        PrependAllStep(collected, r.value, ProjectsFrom(api, orgSlug, items[i + 1..], State()));
      }
    }

    /** The loop of `get_projects`. */
    method CollectProjects(orgSlug: Json, items: seq<Json>) returns (r: Result<seq<Project>, Error>)
      modifies this, session, clock
      ensures Reply(r, State()) == ProjectsFrom(api, orgSlug, items, old(State()))
    {
      var projects: seq<Project> := [];
      var i := 0;
      assert items[0..] == items;
      PrependNothing(ProjectsFrom(api, orgSlug, items, State()));
      while i < |items|
        invariant 0 <= i <= |items|
        invariant ProjectsFrom(api, orgSlug, items, old(State())) ==
          PrependAll(projects, ProjectsFrom(api, orgSlug, items[i..], State()))
      {
        var project := NextProject(orgSlug, items, i, projects);
        if project.Failure? {
          return Failure(project.error);
        }
        projects := projects + [project.value];
        i := i + 1;
      }
      assert items[i..] == [] && projects + [] == projects;
      return Success(projects);
    }

    /** `get_projects`. */
    method GetProjects(orgSlug: Json) returns (r: Result<seq<Project>, Error>)
      modifies this, session, clock
      ensures Reply(r, State()) == Projects(api, orgSlug, old(State()))
    {
      var data := MakeRequest(ProjectsEndpoint(orgSlug));
      if data.Failure? {
        return Failure(data.error);
      }
      if !data.value.JArr? {
        return Success([]);
      }
      r := CollectProjects(orgSlug, data.value.arr);
    }

    /** The team phase of `discover_all`, which `projects_only` skips. */
    method DiscoverTeams(org: Organization, projectsOnly: bool) returns (r: Result<seq<Team>, Error>)
      modifies this, session, clock
      ensures Reply(r, State()) == TeamPhase(api, org, projectsOnly, old(State()))
    {
      if projectsOnly {
        return Success([]);
      }
      r := GetTeams(org.slug);
    }

    /** The project phase of `discover_all`, which `teams_only` skips. */
    method DiscoverProjects(org: Organization, teamsOnly: bool) returns (r: Result<seq<Project>, Error>)
      modifies this, session, clock
      ensures Reply(r, State()) == ProjectPhase(api, org, teamsOnly, old(State()))
    {
      if teamsOnly {
        return Success([]);
      }
      r := GetProjects(org.slug);
    }

    /** `discover_all` once the organisation is chosen. */
    method DiscoverInOrganization(org: Organization, projectsOnly: bool, teamsOnly: bool)
      returns (r: Result<Json, Error>, progress: seq<int>)
      modifies this, session, clock
      ensures Run(r, progress, State()) == DiscoverIn(api, org, projectsOnly, teamsOnly, old(State()))
    {
      progress := [20];
      var teams := DiscoverTeams(org, projectsOnly);
      if teams.Failure? {
        return Failure(teams.error), progress;
      }
      // 60 is reported only when the team phase ran
      var teamMark: seq<int> := if projectsOnly then [] else [60];
      progress := progress + teamMark;
      var projects := DiscoverProjects(org, teamsOnly);
      if projects.Failure? {
        return Failure(projects.error), progress;
      }
      // 90 is reported only when the project phase ran
      var projectMark: seq<int> := if teamsOnly then [] else [90];
      progress := progress + projectMark + [100];
      r := Success(DiscoveryResult(org, SerializeTeams(teams.value), SerializeProjects(projects.value)));
    }

    /** `discover_all`, with the values passed to the progress callback
        returned in order. */
    method DiscoverAll(target: Option<string>, projectsOnly: bool, teamsOnly: bool)
      returns (r: Result<Json, Error>, progress: seq<int>)
      modifies this, session, clock
      ensures Run(r, progress, State()) == Discover(api, target, projectsOnly, teamsOnly, old(State()))
    {
      var orgs := GetOrganizations();
      if orgs.Failure? {
        return Failure(orgs.error), [10];
      }
      if orgs.value == [] {
        return Success(EmptyObj), [10];
      }
      var chosen := ChooseOrganization(orgs.value, target);
      if chosen.Failure? {
        return Failure(chosen.error), [10];
      }
      var rest;
      r, rest := DiscoverInOrganization(chosen.value, projectsOnly, teamsOnly);
      progress := [10] + rest;
    }

    /** `test_connection`: every failure reads as false. */
    method TestConnection() returns (ok: bool)
      modifies this, session, clock
      ensures Probe(ok, State()) == ConnectionOk(api, old(State()))
    {
      var orgs := GetOrganizations();
      ok := orgs.Success? && |orgs.value| > 0;
    }
  }

  /** The loop of `get_organizations`: one `SentryOrganization` per element,
      in order, or the error of the first element that is not one. */
  method CollectOrganizations(items: seq<Json>) returns (r: Result<seq<Organization>, Error>)
    ensures r == ParseOrganizations(items)
  {
    var orgs: seq<Organization> := [];
    var i := 0;
    assert items[0..] == items;
    if ParseOrganizations(items).Success? {
      assert [] + ParseOrganizations(items).value == ParseOrganizations(items).value;
    }
    while i < |items|
      invariant 0 <= i <= |items|
      invariant ParseOrganizations(items) ==
        if ParseOrganizations(items[i..]).Failure? then ParseOrganizations(items[i..])
        else Success(orgs + ParseOrganizations(items[i..]).value)
    {
      assert items[i..][0] == items[i] && items[i..][1..] == items[i + 1..];
      var org := ParseOrganization(items[i]);
      if org.Failure? {
        return Failure(org.error);
      }
      if ParseOrganizations(items[i + 1..]).Success? {
        assert orgs + ([org.value] + ParseOrganizations(items[i + 1..]).value)
            == (orgs + [org.value]) + ParseOrganizations(items[i + 1..]).value;
      }
      orgs := orgs + [org.value];
      i := i + 1;
    }
    assert items[i..] == [] && orgs + [] == orgs;
    return Success(orgs);
  }
}
