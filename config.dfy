/** The configuration of the discovery tool: the four dataclass sections, the
    environment fallbacks applied when a Sentry section is built, the
    conversion to the nested dict that is saved, the overlay of a loaded dict
    onto the defaults, and the validation that lists what is wrong. */
module Config {
  import opened Values

  const DefaultBaseUrl: string := "https://sentry.io/api/0"

  datatype SentryConfig = SentryConfig(
    token: Option<string>,
    baseUrl: string,
    organization: Option<string>,
    timeout: int,
    retryAttempts: int,
    isSelfHosted: bool)

  datatype TerraformConfig = TerraformConfig(
    outputDir: string,
    moduleStyle: bool,
    importScript: bool,
    terraformVersion: string,
    providerVersion: string,
    templateDir: Option<string>,
    resourcePrefix: string,
    safeNaming: bool,
    includeComments: bool,
    includeLocals: bool,
    includeOutputs: bool)

  datatype OutputConfig = OutputConfig(
    format: string,
    dryRun: bool,
    verbose: bool,
    includeMetadata: bool,
    separateFiles: bool,
    fileNaming: string)

  datatype FilterConfig = FilterConfig(
    includeProjects: seq<Json>,
    excludeProjects: seq<Json>,
    includeTeams: seq<Json>,
    excludeTeams: seq<Json>,
    includePlatforms: seq<Json>,
    excludePlatforms: seq<Json>,
    includeActiveOnly: bool)

  datatype Config = Config(
    sentry: SentryConfig,
    terraform: TerraformConfig,
    output: OutputConfig,
    filters: FilterConfig)

  // ---------------------------------------------------------------------------
  // SentryConfig.__post_init__

  /** Python truthiness of an optional string: neither None nor "". */
  predicate Truthy(s: Option<string>) {
    s.Some? && s.value != ""
  }

  /** `os.getenv(name)`. */
  function EnvGet(env: map<string, string>, name: string): Option<string> {
    if name in env then Some(env[name]) else None
  }

  /** `sub` occurs in `s` starting at index `i`. */
  predicate OccursAt(s: string, sub: string, i: int) {
    0 <= i <= |s| - |sub| && s[i..i + |sub|] == sub
  }

  /** Python's `sub in s` on strings. */
  predicate Contains(s: string, sub: string) {
    exists i :: 0 <= i <= |s| - |sub| && OccursAt(s, sub, i)
  }

  /** The fields after `__post_init__`: the token and the organisation come from
      the environment only when they are falsy, the base URL only when it is
      still the default, and the self-hosted flag is raised (never lowered)
      when the resulting base URL does not mention sentry.io. */
  function PostInit(c: SentryConfig, env: map<string, string>): (r: SentryConfig)
    ensures Truthy(c.token) ==> r.token == c.token
    ensures !Truthy(c.token) ==> r.token == EnvGet(env, "SENTRY_AUTH_TOKEN")
    ensures c.baseUrl != DefaultBaseUrl ==> r.baseUrl == c.baseUrl
    ensures c.baseUrl == DefaultBaseUrl ==>
      r.baseUrl == if "SENTRY_BASE_URL" in env then env["SENTRY_BASE_URL"] else DefaultBaseUrl
    ensures Truthy(c.organization) ==> r.organization == c.organization
    ensures !Truthy(c.organization) ==> r.organization == EnvGet(env, "SENTRY_ORG")
    ensures r.timeout == c.timeout && r.retryAttempts == c.retryAttempts
    ensures c.isSelfHosted ==> r.isSelfHosted
    ensures r.isSelfHosted <==> c.isSelfHosted || !Contains(r.baseUrl, "sentry.io")
  {
    var token := if Truthy(c.token) then c.token else EnvGet(env, "SENTRY_AUTH_TOKEN");
    var baseUrl := if c.baseUrl == DefaultBaseUrl then
        (if "SENTRY_BASE_URL" in env then env["SENTRY_BASE_URL"] else c.baseUrl)
      else c.baseUrl;
    var organization := if Truthy(c.organization) then c.organization else EnvGet(env, "SENTRY_ORG");
    var isSelfHosted := if !Contains(baseUrl, "sentry.io") then true else c.isSelfHosted;
    c.(token := token, baseUrl := baseUrl, organization := organization, isSelfHosted := isSelfHosted)
  }

  /** Applying the fallbacks a second time with the same environment changes nothing. */
  lemma PostInitIdempotent(c: SentryConfig, env: map<string, string>)
    ensures PostInit(PostInit(c, env), env) == PostInit(c, env)
  {
  }

  lemma DefaultUrlIsSentryIo()
    ensures Contains(DefaultBaseUrl, "sentry.io")
  {
    assert OccursAt(DefaultBaseUrl, "sentry.io", 8);
  }

  /** `SentryConfig()` as the dataclass default factory builds it. */
  function DefaultSentry(env: map<string, string>): SentryConfig {
    PostInit(SentryConfig(None, DefaultBaseUrl, None, 30, 3, false), env)
  }

  /** With nothing in the environment the defaults stay: no token, sentry.io, not self-hosted. */
  lemma DefaultSentryEmptyEnv()
    ensures DefaultSentry(map[]) == SentryConfig(None, DefaultBaseUrl, None, 30, 3, false)
  {
    DefaultUrlIsSentryIo();
  }

  const DefaultTerraform: TerraformConfig :=
    TerraformConfig("./terraform", false, true, ">=1.0", "~> 0.14.0", None, "", true, true, true, true)

  const DefaultOutput: OutputConfig := OutputConfig("hcl", false, false, true, true, "resource_type")

  const DefaultFilters: FilterConfig := FilterConfig([], [], [], [], [], [], true)

  /** `Config()`: each section from its default factory. */
  function DefaultConfig(env: map<string, string>): Config {
    Config(DefaultSentry(env), DefaultTerraform, DefaultOutput, DefaultFilters)
  }

  // ---------------------------------------------------------------------------
  // Config.to_dict

  function OptStr(s: Option<string>): Json {
    if s.Some? then JStr(s.value) else JNull
  }

  function SentryView(s: SentryConfig): map<string, Json> {
    map[
      "base_url" := JStr(s.baseUrl),
      "organization" := OptStr(s.organization),
      "timeout" := JInt(s.timeout),
      "retry_attempts" := JInt(s.retryAttempts)]
  }

  function TerraformView(t: TerraformConfig): map<string, Json> {
    map[
      "output_dir" := JStr(t.outputDir),
      "module_style" := JBool(t.moduleStyle),
      "import_script" := JBool(t.importScript),
      "terraform_version" := JStr(t.terraformVersion),
      "provider_version" := JStr(t.providerVersion),
      "template_dir" := OptStr(t.templateDir),
      "resource_prefix" := JStr(t.resourcePrefix),
      "safe_naming" := JBool(t.safeNaming),
      "include_comments" := JBool(t.includeComments),
      "include_locals" := JBool(t.includeLocals),
      "include_outputs" := JBool(t.includeOutputs)]
  }

  function OutputView(o: OutputConfig): map<string, Json> {
    map[
      "format" := JStr(o.format),
      "dry_run" := JBool(o.dryRun),
      "verbose" := JBool(o.verbose),
      "include_metadata" := JBool(o.includeMetadata),
      "separate_files" := JBool(o.separateFiles),
      "file_naming" := JStr(o.fileNaming)]
  }

  function FiltersView(f: FilterConfig): map<string, Json> {
    map[
      "include_projects" := JArr(f.includeProjects),
      "exclude_projects" := JArr(f.excludeProjects),
      "include_teams" := JArr(f.includeTeams),
      "exclude_teams" := JArr(f.excludeTeams),
      "include_platforms" := JArr(f.includePlatforms),
      "exclude_platforms" := JArr(f.excludePlatforms),
      "include_active_only" := JBool(f.includeActiveOnly)]
  }

  /** The nested dict that is saved: four sections; the token and the
      self-hosted flag are never written. */
  function ToDict(c: Config): (d: map<string, Json>)
    ensures d.Keys == {"sentry", "terraform", "output", "filters"}
    ensures d["sentry"].JObj? && "token" !in d["sentry"].obj
  {
    map[
      "sentry" := JObj(SentryView(c.sentry)),
      "terraform" := JObj(TerraformView(c.terraform)),
      "output" := JObj(OutputView(c.output)),
      "filters" := JObj(FiltersView(c.filters))]
  }

  /** The saved Sentry section holds exactly four keys: neither the token nor
      the self-hosted flag is ever written. */
  lemma ToDictSentryKeys(c: Config)
    ensures ToDict(c)["sentry"].obj.Keys == {"base_url", "organization", "timeout", "retry_attempts"}
  {
  }

  // ---------------------------------------------------------------------------
  // Config.from_dict

  datatype ConfigError =
    /** A present section that is not a dict has no `.get`. */
    | AttributeError(section: string)
    /** A value whose JSON type the typed field cannot hold. */
    | WrongType(section: string, key: string)

  /** `section.get(key, default)` read into a `str` field. */
  function GetStr(sec: map<string, Json>, section: string, key: string, default: string): (r: Result<string, ConfigError>)
    ensures key !in sec ==> r == Success(default)
    ensures key in sec ==> (r.Success? <==> sec[key].JStr?) && (r.Success? ==> JStr(r.value) == sec[key])
  {
    if key !in sec then Success(default)
    else if sec[key].JStr? then Success(sec[key].s)
    else Failure(WrongType(section, key))
  }

  /** `section.get(key, default)` read into an `Optional[str]` field. */
  function GetOptStr(sec: map<string, Json>, section: string, key: string, default: Option<string>): (r: Result<Option<string>, ConfigError>)
    ensures key !in sec ==> r == Success(default)
    ensures key in sec ==> (r.Success? <==> sec[key].JStr? || sec[key].JNull?) && (r.Success? ==> OptStr(r.value) == sec[key])
  {
    if key !in sec then Success(default)
    else if sec[key].JStr? then Success(Some(sec[key].s))
    else if sec[key].JNull? then Success(None)
    else Failure(WrongType(section, key))
  }

  /** `section.get(key, default)` read into an `int` field. */
  function GetInt(sec: map<string, Json>, section: string, key: string, default: int): (r: Result<int, ConfigError>)
    ensures key !in sec ==> r == Success(default)
    ensures key in sec ==> (r.Success? <==> sec[key].JInt?) && (r.Success? ==> JInt(r.value) == sec[key])
  {
    if key !in sec then Success(default)
    else if sec[key].JInt? then Success(sec[key].i)
    else Failure(WrongType(section, key))
  }

  /** `section.get(key, default)` read into a `bool` field. */
  function GetBool(sec: map<string, Json>, section: string, key: string, default: bool): (r: Result<bool, ConfigError>)
    ensures key !in sec ==> r == Success(default)
    ensures key in sec ==> (r.Success? <==> sec[key].JBool?) && (r.Success? ==> JBool(r.value) == sec[key])
  {
    if key !in sec then Success(default)
    else if sec[key].JBool? then Success(sec[key].b)
    else Failure(WrongType(section, key))
  }

  /** `section.get(key, default)` read into a `list` field. */
  function GetList(sec: map<string, Json>, section: string, key: string, default: seq<Json>): (r: Result<seq<Json>, ConfigError>)
    ensures key !in sec ==> r == Success(default)
    ensures key in sec ==> (r.Success? <==> sec[key].JArr?) && (r.Success? ==> JArr(r.value) == sec[key])
  {
    if key !in sec then Success(default)
    else if sec[key].JArr? then Success(sec[key].arr)
    else Failure(WrongType(section, key))
  }

  function OverlaySentry(c: SentryConfig, sec: map<string, Json>): Result<SentryConfig, ConfigError> {
    var baseUrl :- GetStr(sec, "sentry", "base_url", c.baseUrl);
    var organization :- GetOptStr(sec, "sentry", "organization", c.organization);
    var token :- GetOptStr(sec, "sentry", "token", c.token);
    var timeout :- GetInt(sec, "sentry", "timeout", c.timeout);
    var retryAttempts :- GetInt(sec, "sentry", "retry_attempts", c.retryAttempts);
    Success(c.(baseUrl := baseUrl, organization := organization, token := token,
      timeout := timeout, retryAttempts := retryAttempts))
  }

  /** The output-layout fields of `from_dict`. */
  function OverlayTerraformLayout(t: TerraformConfig, sec: map<string, Json>): Result<TerraformConfig, ConfigError> {
    var outputDir :- GetStr(sec, "terraform", "output_dir", t.outputDir);
    var moduleStyle :- GetBool(sec, "terraform", "module_style", t.moduleStyle);
    var importScript :- GetBool(sec, "terraform", "import_script", t.importScript);
    Success(t.(outputDir := outputDir, moduleStyle := moduleStyle, importScript := importScript))
  }

  /** The version and template fields of `from_dict`. */
  function OverlayTerraformVersions(t: TerraformConfig, sec: map<string, Json>): Result<TerraformConfig, ConfigError> {
    var terraformVersion :- GetStr(sec, "terraform", "terraform_version", t.terraformVersion);
    var providerVersion :- GetStr(sec, "terraform", "provider_version", t.providerVersion);
    var templateDir :- GetOptStr(sec, "terraform", "template_dir", t.templateDir);
    Success(t.(terraformVersion := terraformVersion, providerVersion := providerVersion, templateDir := templateDir))
  }

  /** The naming and generation-option fields of `from_dict`. */
  function OverlayTerraformOptions(t: TerraformConfig, sec: map<string, Json>): Result<TerraformConfig, ConfigError> {
    var resourcePrefix :- GetStr(sec, "terraform", "resource_prefix", t.resourcePrefix);
    var safeNaming :- GetBool(sec, "terraform", "safe_naming", t.safeNaming);
    var includeComments :- GetBool(sec, "terraform", "include_comments", t.includeComments);
    var includeLocals :- GetBool(sec, "terraform", "include_locals", t.includeLocals);
    var includeOutputs :- GetBool(sec, "terraform", "include_outputs", t.includeOutputs);
    Success(t.(resourcePrefix := resourcePrefix, safeNaming := safeNaming, includeComments := includeComments,
      includeLocals := includeLocals, includeOutputs := includeOutputs))
  }

  function OverlayTerraform(t: TerraformConfig, sec: map<string, Json>): Result<TerraformConfig, ConfigError> {
    var layout :- OverlayTerraformLayout(t, sec);
    var versions :- OverlayTerraformVersions(layout, sec);
    OverlayTerraformOptions(versions, sec)
  }

  function OverlayOutput(o: OutputConfig, sec: map<string, Json>): Result<OutputConfig, ConfigError> {
    var format :- GetStr(sec, "output", "format", o.format);
    var dryRun :- GetBool(sec, "output", "dry_run", o.dryRun);
    var verbose :- GetBool(sec, "output", "verbose", o.verbose);
    var includeMetadata :- GetBool(sec, "output", "include_metadata", o.includeMetadata);
    var separateFiles :- GetBool(sec, "output", "separate_files", o.separateFiles);
    var fileNaming :- GetStr(sec, "output", "file_naming", o.fileNaming);
    Success(OutputConfig(format, dryRun, verbose, includeMetadata, separateFiles, fileNaming))
  }

  function OverlayFilters(f: FilterConfig, sec: map<string, Json>): Result<FilterConfig, ConfigError> {
    var includeProjects :- GetList(sec, "filters", "include_projects", f.includeProjects);
    var excludeProjects :- GetList(sec, "filters", "exclude_projects", f.excludeProjects);
    var includeTeams :- GetList(sec, "filters", "include_teams", f.includeTeams);
    var excludeTeams :- GetList(sec, "filters", "exclude_teams", f.excludeTeams);
    var includePlatforms :- GetList(sec, "filters", "include_platforms", f.includePlatforms);
    var excludePlatforms :- GetList(sec, "filters", "exclude_platforms", f.excludePlatforms);
    var includeActiveOnly :- GetBool(sec, "filters", "include_active_only", f.includeActiveOnly);
    Success(FilterConfig(includeProjects, excludeProjects, includeTeams, excludeTeams,
      includePlatforms, excludePlatforms, includeActiveOnly))
  }

  /** The loaded dict laid over `defaults`, section by section in the order
      sentry, terraform, output, filters. */
  function Overlay(defaults: Config, data: map<string, Json>): Result<Config, ConfigError> {
    var sentry :-
      if "sentry" !in data then Success(defaults.sentry)
      else if !data["sentry"].JObj? then Failure(AttributeError("sentry"))
      else OverlaySentry(defaults.sentry, data["sentry"].obj);
    var terraform :-
      if "terraform" !in data then Success(defaults.terraform)
      else if !data["terraform"].JObj? then Failure(AttributeError("terraform"))
      else OverlayTerraform(defaults.terraform, data["terraform"].obj);
    var output :-
      if "output" !in data then Success(defaults.output)
      else if !data["output"].JObj? then Failure(AttributeError("output"))
      else OverlayOutput(defaults.output, data["output"].obj);
    var filters :-
      if "filters" !in data then Success(defaults.filters)
      else if !data["filters"].JObj? then Failure(AttributeError("filters"))
      else OverlayFilters(defaults.filters, data["filters"].obj);
    Success(Config(sentry, terraform, output, filters))
  }

  /** The Sentry lines of `from_dict`: each present key overrides its field. */
  method ApplySentry(c: SentryConfig, sec: map<string, Json>) returns (r: Result<SentryConfig, ConfigError>)
    ensures r == OverlaySentry(c, sec)
  {
    var s := c;
    var baseUrl :- GetStr(sec, "sentry", "base_url", s.baseUrl);
    s := s.(baseUrl := baseUrl);
    var organization :- GetOptStr(sec, "sentry", "organization", s.organization);
    s := s.(organization := organization);
    var token :- GetOptStr(sec, "sentry", "token", s.token);
    s := s.(token := token);
    var timeout :- GetInt(sec, "sentry", "timeout", s.timeout);
    s := s.(timeout := timeout);
    var retryAttempts :- GetInt(sec, "sentry", "retry_attempts", s.retryAttempts);
    s := s.(retryAttempts := retryAttempts);
    return Success(s);
  }

  /** The Terraform lines of `from_dict` that set the output layout. */
  method ApplyTerraformLayout(c: TerraformConfig, sec: map<string, Json>) returns (r: Result<TerraformConfig, ConfigError>)
    ensures r == OverlayTerraformLayout(c, sec)
  {
    var t := c;
    var outputDir :- GetStr(sec, "terraform", "output_dir", t.outputDir);
    t := t.(outputDir := outputDir);
    var moduleStyle :- GetBool(sec, "terraform", "module_style", t.moduleStyle);
    t := t.(moduleStyle := moduleStyle);
    var importScript :- GetBool(sec, "terraform", "import_script", t.importScript);
    t := t.(importScript := importScript);
    return Success(t);
  }

  /** The Terraform lines of `from_dict` that set the versions and the template directory. */
  method ApplyTerraformVersions(c: TerraformConfig, sec: map<string, Json>) returns (r: Result<TerraformConfig, ConfigError>)
    ensures r == OverlayTerraformVersions(c, sec)
  {
    var t := c;
    var terraformVersion :- GetStr(sec, "terraform", "terraform_version", t.terraformVersion);
    t := t.(terraformVersion := terraformVersion);
    var providerVersion :- GetStr(sec, "terraform", "provider_version", t.providerVersion);
    t := t.(providerVersion := providerVersion);
    var templateDir :- GetOptStr(sec, "terraform", "template_dir", t.templateDir);
    t := t.(templateDir := templateDir);
    return Success(t);
  }

  /** The Terraform lines of `from_dict` that set the naming and generation options. */
  method ApplyTerraformOptions(c: TerraformConfig, sec: map<string, Json>) returns (r: Result<TerraformConfig, ConfigError>)
    ensures r == OverlayTerraformOptions(c, sec)
  {
    var t := c;
    var resourcePrefix :- GetStr(sec, "terraform", "resource_prefix", t.resourcePrefix);
    t := t.(resourcePrefix := resourcePrefix);
    var safeNaming :- GetBool(sec, "terraform", "safe_naming", t.safeNaming);
    t := t.(safeNaming := safeNaming);
    var includeComments :- GetBool(sec, "terraform", "include_comments", t.includeComments);
    t := t.(includeComments := includeComments);
    var includeLocals :- GetBool(sec, "terraform", "include_locals", t.includeLocals);
    t := t.(includeLocals := includeLocals);
    var includeOutputs :- GetBool(sec, "terraform", "include_outputs", t.includeOutputs);
    t := t.(includeOutputs := includeOutputs);
    return Success(t);
  }

  /** The Terraform lines of `from_dict`. */
  method ApplyTerraform(c: TerraformConfig, sec: map<string, Json>) returns (r: Result<TerraformConfig, ConfigError>)
    ensures r == OverlayTerraform(c, sec)
  {
    var layout :- ApplyTerraformLayout(c, sec);
    var versions :- ApplyTerraformVersions(layout, sec);
    r := ApplyTerraformOptions(versions, sec);
  }

  /** The output lines of `from_dict`. */
  method ApplyOutput(c: OutputConfig, sec: map<string, Json>) returns (r: Result<OutputConfig, ConfigError>)
    ensures r == OverlayOutput(c, sec)
  {
    var o := c;
    var format :- GetStr(sec, "output", "format", o.format);
    o := o.(format := format);
    var dryRun :- GetBool(sec, "output", "dry_run", o.dryRun);
    o := o.(dryRun := dryRun);
    var verbose :- GetBool(sec, "output", "verbose", o.verbose);
    o := o.(verbose := verbose);
    var includeMetadata :- GetBool(sec, "output", "include_metadata", o.includeMetadata);
    o := o.(includeMetadata := includeMetadata);
    var separateFiles :- GetBool(sec, "output", "separate_files", o.separateFiles);
    o := o.(separateFiles := separateFiles);
    var fileNaming :- GetStr(sec, "output", "file_naming", o.fileNaming);
    o := o.(fileNaming := fileNaming);
    return Success(o);
  }

  /** The filter lines of `from_dict`. */
  method ApplyFilters(c: FilterConfig, sec: map<string, Json>) returns (r: Result<FilterConfig, ConfigError>)
    ensures r == OverlayFilters(c, sec)
  {
    var f := c;
    var includeProjects :- GetList(sec, "filters", "include_projects", f.includeProjects);
    f := f.(includeProjects := includeProjects);
    var excludeProjects :- GetList(sec, "filters", "exclude_projects", f.excludeProjects);
    f := f.(excludeProjects := excludeProjects);
    var includeTeams :- GetList(sec, "filters", "include_teams", f.includeTeams);
    f := f.(includeTeams := includeTeams);
    var excludeTeams :- GetList(sec, "filters", "exclude_teams", f.excludeTeams);
    f := f.(excludeTeams := excludeTeams);
    var includePlatforms :- GetList(sec, "filters", "include_platforms", f.includePlatforms);
    f := f.(includePlatforms := includePlatforms);
    var excludePlatforms :- GetList(sec, "filters", "exclude_platforms", f.excludePlatforms);
    f := f.(excludePlatforms := excludePlatforms);
    var includeActiveOnly :- GetBool(sec, "filters", "include_active_only", f.includeActiveOnly);
    f := f.(includeActiveOnly := includeActiveOnly);
    return Success(f);
  }

  /** `Config.from_dict`: a fresh `Config()` (whose Sentry section has already
      taken the environment fallbacks) updated section by section from the dict. */
  method FromDict(data: map<string, Json>, env: map<string, string>) returns (r: Result<Config, ConfigError>)
    ensures r == Overlay(DefaultConfig(env), data)
  {
    var config := DefaultConfig(env);
    if "sentry" in data {
      if !data["sentry"].JObj? {
        return Failure(AttributeError("sentry"));
      }
      var sentry :- ApplySentry(config.sentry, data["sentry"].obj);
      config := config.(sentry := sentry);
    }
    if "terraform" in data {
      if !data["terraform"].JObj? {
        return Failure(AttributeError("terraform"));
      }
      var terraform :- ApplyTerraform(config.terraform, data["terraform"].obj);
      config := config.(terraform := terraform);
    }
    if "output" in data {
      if !data["output"].JObj? {
        return Failure(AttributeError("output"));
      }
      var output :- ApplyOutput(config.output, data["output"].obj);
      config := config.(output := output);
    }
    if "filters" in data {
      if !data["filters"].JObj? {
        return Failure(AttributeError("filters"));
      }
      var filters :- ApplyFilters(config.filters, data["filters"].obj);
      config := config.(filters := filters);
    }
    return Success(config);
  }

  /** In a present Sentry section every written key that is there overrides
      its field and every absent key keeps the default; a token may be loaded
      although it is never written; the self-hosted flag is not recomputed. */
  lemma OverlaySentryMeaning(c: SentryConfig, sec: map<string, Json>)
    requires OverlaySentry(c, sec).Success?
    ensures var r := OverlaySentry(c, sec).value;
      && (forall k :: k in SentryView(c) ==> SentryView(r)[k] == Get(sec, k, SentryView(c)[k]))
      && OptStr(r.token) == Get(sec, "token", OptStr(c.token))
      && r.isSelfHosted == c.isSelfHosted
  {
  }

  lemma OverlayTerraformLayoutMeaning(c: TerraformConfig, sec: map<string, Json>)
    requires OverlayTerraformLayout(c, sec).Success?
    ensures var r := OverlayTerraformLayout(c, sec).value;
      && JStr(r.outputDir) == Get(sec, "output_dir", JStr(c.outputDir))
      && JBool(r.moduleStyle) == Get(sec, "module_style", JBool(c.moduleStyle))
      && JBool(r.importScript) == Get(sec, "import_script", JBool(c.importScript))
      && r.terraformVersion == c.terraformVersion && r.providerVersion == c.providerVersion
      && r.templateDir == c.templateDir
      && r.resourcePrefix == c.resourcePrefix && r.safeNaming == c.safeNaming
      && r.includeComments == c.includeComments && r.includeLocals == c.includeLocals
      && r.includeOutputs == c.includeOutputs
  {
  }

  lemma OverlayTerraformVersionsMeaning(c: TerraformConfig, sec: map<string, Json>)
    requires OverlayTerraformVersions(c, sec).Success?
    ensures var r := OverlayTerraformVersions(c, sec).value;
      && r.outputDir == c.outputDir && r.moduleStyle == c.moduleStyle && r.importScript == c.importScript
      && JStr(r.terraformVersion) == Get(sec, "terraform_version", JStr(c.terraformVersion))
      && JStr(r.providerVersion) == Get(sec, "provider_version", JStr(c.providerVersion))
      && OptStr(r.templateDir) == Get(sec, "template_dir", OptStr(c.templateDir))
      && r.resourcePrefix == c.resourcePrefix && r.safeNaming == c.safeNaming
      && r.includeComments == c.includeComments && r.includeLocals == c.includeLocals
      && r.includeOutputs == c.includeOutputs
  {
  }

  lemma OverlayTerraformOptionsMeaning(c: TerraformConfig, sec: map<string, Json>)
    requires OverlayTerraformOptions(c, sec).Success?
    ensures var r := OverlayTerraformOptions(c, sec).value;
      && r.outputDir == c.outputDir && r.moduleStyle == c.moduleStyle && r.importScript == c.importScript
      && r.terraformVersion == c.terraformVersion && r.providerVersion == c.providerVersion
      && r.templateDir == c.templateDir
      && JStr(r.resourcePrefix) == Get(sec, "resource_prefix", JStr(c.resourcePrefix))
      && JBool(r.safeNaming) == Get(sec, "safe_naming", JBool(c.safeNaming))
      && JBool(r.includeComments) == Get(sec, "include_comments", JBool(c.includeComments))
      && JBool(r.includeLocals) == Get(sec, "include_locals", JBool(c.includeLocals))
      && JBool(r.includeOutputs) == Get(sec, "include_outputs", JBool(c.includeOutputs))
  {
  }

  /** In a present Terraform section every key that is there overrides its
      field and every absent key keeps the default. */
  lemma OverlayTerraformMeaning(c: TerraformConfig, sec: map<string, Json>)
    requires OverlayTerraform(c, sec).Success?
    ensures var r := OverlayTerraform(c, sec).value;
      && JStr(r.outputDir) == Get(sec, "output_dir", JStr(c.outputDir))
      && JBool(r.moduleStyle) == Get(sec, "module_style", JBool(c.moduleStyle))
      && JBool(r.importScript) == Get(sec, "import_script", JBool(c.importScript))
      && JStr(r.terraformVersion) == Get(sec, "terraform_version", JStr(c.terraformVersion))
      && JStr(r.providerVersion) == Get(sec, "provider_version", JStr(c.providerVersion))
      && OptStr(r.templateDir) == Get(sec, "template_dir", OptStr(c.templateDir))
      && JStr(r.resourcePrefix) == Get(sec, "resource_prefix", JStr(c.resourcePrefix))
      && JBool(r.safeNaming) == Get(sec, "safe_naming", JBool(c.safeNaming))
      && JBool(r.includeComments) == Get(sec, "include_comments", JBool(c.includeComments))
      && JBool(r.includeLocals) == Get(sec, "include_locals", JBool(c.includeLocals))
      && JBool(r.includeOutputs) == Get(sec, "include_outputs", JBool(c.includeOutputs))
  {
    var layout := OverlayTerraformLayout(c, sec).value;
    OverlayTerraformLayoutMeaning(c, sec);
    OverlayTerraformVersionsMeaning(layout, sec);
    OverlayTerraformOptionsMeaning(OverlayTerraformVersions(layout, sec).value, sec);
  }

  lemma OverlayOutputMeaning(c: OutputConfig, sec: map<string, Json>)
    requires OverlayOutput(c, sec).Success?
    ensures var r := OverlayOutput(c, sec).value;
      && JStr(r.format) == Get(sec, "format", JStr(c.format))
      && JBool(r.dryRun) == Get(sec, "dry_run", JBool(c.dryRun))
      && JBool(r.verbose) == Get(sec, "verbose", JBool(c.verbose))
      && JBool(r.includeMetadata) == Get(sec, "include_metadata", JBool(c.includeMetadata))
      && JBool(r.separateFiles) == Get(sec, "separate_files", JBool(c.separateFiles))
      && JStr(r.fileNaming) == Get(sec, "file_naming", JStr(c.fileNaming))
  {
  }

  lemma OverlayFiltersMeaning(c: FilterConfig, sec: map<string, Json>)
    requires OverlayFilters(c, sec).Success?
    ensures var r := OverlayFilters(c, sec).value;
      forall k :: k in FiltersView(c) ==> FiltersView(r)[k] == Get(sec, k, FiltersView(c)[k])
  {
  }

  /** A section left out of the dict keeps all of its defaults, a present one
      is laid over them key by key, and a failure is reported only for a
      present section that is not a dict or a value of the wrong type. */
  lemma OverlayMeaning(defaults: Config, data: map<string, Json>)
    requires Overlay(defaults, data).Success?
    ensures var c := Overlay(defaults, data).value;
      && (if "sentry" in data then data["sentry"].JObj? && Success(c.sentry) == OverlaySentry(defaults.sentry, data["sentry"].obj)
          else c.sentry == defaults.sentry)
      && (if "terraform" in data then data["terraform"].JObj? && Success(c.terraform) == OverlayTerraform(defaults.terraform, data["terraform"].obj)
          else c.terraform == defaults.terraform)
      && (if "output" in data then data["output"].JObj? && Success(c.output) == OverlayOutput(defaults.output, data["output"].obj)
          else c.output == defaults.output)
      && (if "filters" in data then data["filters"].JObj? && Success(c.filters) == OverlayFilters(defaults.filters, data["filters"].obj)
          else c.filters == defaults.filters)
      && c.sentry.isSelfHosted == defaults.sentry.isSelfHosted
  {
  }

  /** The sections are read in order, so the first section that is not a dict
      is the one reported, unless an earlier section had a wrong value. */
  lemma OverlayNonDictSection(defaults: Config, data: map<string, Json>)
    requires "sentry" in data && !data["sentry"].JObj?
    ensures Overlay(defaults, data) == Failure(AttributeError("sentry"))
  {
  }

  /** The self-hosted flag of a loaded configuration is the one the defaults
      computed, even when the loaded base URL is not sentry.io. */
  lemma FromDictKeepsSelfHostedFlag(baseUrl: string)
    ensures var data := map["sentry" := JObj(map["base_url" := JStr(baseUrl)])];
      && Overlay(DefaultConfig(map[]), data).Success?
      && Overlay(DefaultConfig(map[]), data).value.sentry.baseUrl == baseUrl
      && !Overlay(DefaultConfig(map[]), data).value.sentry.isSelfHosted
  {
    DefaultSentryEmptyEnv();
  }

  lemma SentryRoundTrip(d: SentryConfig, c: SentryConfig)
    ensures OverlaySentry(d, SentryView(c)) == Success(c.(token := d.token, isSelfHosted := d.isSelfHosted))
  {
  }

  lemma TerraformRoundTrip(d: TerraformConfig, c: TerraformConfig)
    ensures OverlayTerraform(d, TerraformView(c)) == Success(c)
  {
    var layout := d.(outputDir := c.outputDir, moduleStyle := c.moduleStyle, importScript := c.importScript);
    var versions := layout.(terraformVersion := c.terraformVersion, providerVersion := c.providerVersion,
      templateDir := c.templateDir);
    TerraformLayoutRoundTrip(d, c);
    TerraformVersionsRoundTrip(layout, c);
    TerraformOptionsRoundTrip(versions, c);
  }

  lemma TerraformLayoutRoundTrip(d: TerraformConfig, c: TerraformConfig)
    ensures OverlayTerraformLayout(d, TerraformView(c)) ==
      Success(d.(outputDir := c.outputDir, moduleStyle := c.moduleStyle, importScript := c.importScript))
  {
  }

  lemma TerraformVersionsRoundTrip(d: TerraformConfig, c: TerraformConfig)
    ensures OverlayTerraformVersions(d, TerraformView(c)) ==
      Success(d.(terraformVersion := c.terraformVersion, providerVersion := c.providerVersion, templateDir := c.templateDir))
  {
  }

  lemma TerraformOptionsRoundTrip(d: TerraformConfig, c: TerraformConfig)
    ensures OverlayTerraformOptions(d, TerraformView(c)) ==
      Success(d.(resourcePrefix := c.resourcePrefix, safeNaming := c.safeNaming, includeComments := c.includeComments,
        includeLocals := c.includeLocals, includeOutputs := c.includeOutputs))
  {
  }

  lemma OutputRoundTrip(d: OutputConfig, c: OutputConfig)
    ensures OverlayOutput(d, OutputView(c)) == Success(c)
  {
  }

  lemma FiltersRoundTrip(d: FilterConfig, c: FilterConfig)
    ensures OverlayFilters(d, FiltersView(c)) == Success(c)
  {
  }

  /** Loading what was saved gives back every saved field; the token and the
      self-hosted flag come from the defaults. */
  lemma RoundTrip(defaults: Config, c: Config)
    ensures Overlay(defaults, ToDict(c)) ==
      Success(c.(sentry := c.sentry.(token := defaults.sentry.token, isSelfHosted := defaults.sentry.isSelfHosted)))
  {
    var d := ToDict(c);
    assert d["sentry"] == JObj(SentryView(c.sentry)) && d["terraform"] == JObj(TerraformView(c.terraform));
    assert d["output"] == JObj(OutputView(c.output)) && d["filters"] == JObj(FiltersView(c.filters));
    SentryRoundTrip(defaults.sentry, c.sentry);
    TerraformRoundTrip(defaults.terraform, c.terraform);
    OutputRoundTrip(defaults.output, c.output);
    FiltersRoundTrip(defaults.filters, c.filters);
  }

  // ---------------------------------------------------------------------------
  // validate_config

  datatype Check = Check(failed: bool, message: string)

  // The issue messages of `validate_config`.
  const TokenRequired: string := "Sentry auth token is required"
  const BaseUrlRequired: string := "Sentry base URL is required"
  const TimeoutNotPositive: string := "Sentry timeout must be positive"
  const RetryAttemptsNegative: string := "Sentry retry attempts must be non-negative"
  const OutputDirRequired: string := "Terraform output directory is required"
  const TemplateDirMissing: string := "Template directory does not exist: "
  const BadOutputFormat: string := "Output format must be 'hcl', 'json', or 'yaml'"
  const BadFileNaming: string := "File naming must be 'resource_type', 'alphabetical', or 'custom'"


  const CheckCount: nat := 8

  /** The `i`-th check of `validate_config`, in the order it makes them;
      `existingPaths` stands for the paths that exist on disk. */
  function CheckAt(c: Config, existingPaths: set<string>, i: nat): Check
    requires i < CheckCount
  {
    match i
    case 0 => Check(!Truthy(c.sentry.token), TokenRequired)
    case 1 => Check(c.sentry.baseUrl == "", BaseUrlRequired)
    case 2 => Check(c.sentry.timeout <= 0, TimeoutNotPositive)
    case 3 => Check(c.sentry.retryAttempts < 0, RetryAttemptsNegative)
    case 4 => Check(c.terraform.outputDir == "", OutputDirRequired)
    case 5 =>
      Check(Truthy(c.terraform.templateDir) && c.terraform.templateDir.value !in existingPaths,
        TemplateDirMissing + (if c.terraform.templateDir.Some? then c.terraform.templateDir.value else ""))
    case 6 => Check(c.output.format !in ["hcl", "json", "yaml"], BadOutputFormat)
    case _ =>
      Check(c.output.fileNaming !in ["resource_type", "alphabetical", "custom"],
        BadFileNaming)
  }

  /** The messages of the failed checks among the first `n`, in order. */
  function FailedMessages(c: Config, existingPaths: set<string>, n: nat): seq<string>
    requires n <= CheckCount
  {
    if n == 0 then []
    else
      var check := CheckAt(c, existingPaths, n - 1);
      FailedMessages(c, existingPaths, n - 1) + (if check.failed then [check.message] else [])
  }

  /** The issues `validate_config` reports. */
  function Issues(c: Config, existingPaths: set<string>): seq<string> {
    FailedMessages(c, existingPaths, CheckCount)
  }

  /** `validate_config`: each failed check appends its message to `issues`. */
  method ValidateConfig(c: Config, existingPaths: set<string>) returns (issues: seq<string>)
    ensures issues == Issues(c, existingPaths)
  {
    issues := [];
    if !Truthy(c.sentry.token) {
      issues := issues + [TokenRequired];
    }
    assert issues == FailedMessages(c, existingPaths, 1);
    if c.sentry.baseUrl == "" {
      issues := issues + [BaseUrlRequired];
    }
    assert issues == FailedMessages(c, existingPaths, 2);
    if c.sentry.timeout <= 0 {
      issues := issues + [TimeoutNotPositive];
    }
    assert issues == FailedMessages(c, existingPaths, 3);
    if c.sentry.retryAttempts < 0 {
      issues := issues + [RetryAttemptsNegative];
    }
    assert issues == FailedMessages(c, existingPaths, 4);
    if c.terraform.outputDir == "" {
      issues := issues + [OutputDirRequired];
    }
    assert issues == FailedMessages(c, existingPaths, 5);
    if Truthy(c.terraform.templateDir) && c.terraform.templateDir.value !in existingPaths {
      issues := issues + [TemplateDirMissing + c.terraform.templateDir.value];
    }
    assert issues == FailedMessages(c, existingPaths, 6);
    if c.output.format !in ["hcl", "json", "yaml"] {
      issues := issues + [BadOutputFormat];
    }
    assert issues == FailedMessages(c, existingPaths, 7);
    if c.output.fileNaming !in ["resource_type", "alphabetical", "custom"] {
      issues := issues + [BadFileNaming];
    }
  }

  /** A message is reported exactly when one of the checks with that message failed. */
  lemma {:induction false} FailedMessagesIn(c: Config, existingPaths: set<string>, n: nat, m: string)
    requires n <= CheckCount
    ensures m in FailedMessages(c, existingPaths, n) <==>
      exists i :: 0 <= i < n && CheckAt(c, existingPaths, i).failed && CheckAt(c, existingPaths, i).message == m
  {
    if n > 0 {
      FailedMessagesIn(c, existingPaths, n - 1, m);
    }
  }

  /** No message is reported exactly when none of the checks failed. */
  lemma {:induction false} FailedMessagesEmpty(c: Config, existingPaths: set<string>, n: nat)
    requires n <= CheckCount
    ensures FailedMessages(c, existingPaths, n) == [] <==> forall i :: 0 <= i < n ==> !CheckAt(c, existingPaths, i).failed
  {
    if n > 0 {
      FailedMessagesEmpty(c, existingPaths, n - 1);
    }
  }

  /** Everything a run needs is in order. */
  predicate ConfigOk(c: Config, existingPaths: set<string>) {
    && Truthy(c.sentry.token)
    && c.sentry.baseUrl != ""
    && c.sentry.timeout > 0
    && c.sentry.retryAttempts >= 0
    && c.terraform.outputDir != ""
    && (!Truthy(c.terraform.templateDir) || c.terraform.templateDir.value in existingPaths)
    && c.output.format in ["hcl", "json", "yaml"]
    && c.output.fileNaming in ["resource_type", "alphabetical", "custom"]
  }

  /** No issue is reported exactly when the configuration is in order. */
  lemma ValidateConfigEmptyIff(c: Config, existingPaths: set<string>)
    ensures Issues(c, existingPaths) == [] <==> ConfigOk(c, existingPaths)
  {
    FailedMessagesEmpty(c, existingPaths, CheckCount);
    if ConfigOk(c, existingPaths) {
      forall i | 0 <= i < CheckCount
        ensures !CheckAt(c, existingPaths, i).failed
      {
      }
    } else {
      var k := if !Truthy(c.sentry.token) then 0
        else if c.sentry.baseUrl == "" then 1
        else if c.sentry.timeout <= 0 then 2
        else if c.sentry.retryAttempts < 0 then 3
        else if c.terraform.outputDir == "" then 4
        else if Truthy(c.terraform.templateDir) && c.terraform.templateDir.value !in existingPaths then 5
        else if c.output.format !in ["hcl", "json", "yaml"] then 6
        else 7;
      assert CheckAt(c, existingPaths, k).failed;
    }
  }

  /** A missing token is reported, and it is the first issue. */
  lemma MissingTokenReportedFirst(c: Config, existingPaths: set<string>)
    requires !Truthy(c.sentry.token)
    ensures |Issues(c, existingPaths)| >= 1 && Issues(c, existingPaths)[0] == TokenRequired
  {
    FirstIssue(c, existingPaths, CheckCount);
  }

  lemma {:induction false} FirstIssue(c: Config, existingPaths: set<string>, n: nat)
    requires 1 <= n <= CheckCount && !Truthy(c.sentry.token)
    ensures |FailedMessages(c, existingPaths, n)| >= 1
    ensures FailedMessages(c, existingPaths, n)[0] == TokenRequired
  {
    if n > 1 {
      FirstIssue(c, existingPaths, n - 1);
    }
  }

  /** The defaults with a token set, in an environment that leaves them alone,
      pass validation. */
  lemma DefaultsWithTokenAreValid(token: string)
    requires token != ""
    ensures ConfigOk(DefaultConfig(map[]).(sentry := DefaultConfig(map[]).sentry.(token := Some(token))), {})
  {
    DefaultSentryEmptyEnv();
  }
}
