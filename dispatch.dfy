/** The LangChain tool adapters: each `_call` checks the user's token, validates or
    disambiguates its arguments, builds the payload for the MCP server and answers with
    the server's text or with an error string that names the tool.  An adapter never
    throws: every path ends in a string. */
module Dispatch {
  import opened Wrappers
  import opened JsValues
  import opened McpClient

  /** The `configurable` or the `metadata` object of a run config. */
  datatype Section = Section(moodleUserToken: Js, moodleCourseId: Js)

  /** A run config; either object may be missing, and so may the config itself. */
  datatype RunConfig = RunConfig(configurable: Option<Section>, metadata: Option<Section>)

  /** `config?.<part>?.moodle_user_token`, undefined when anything on the way is missing. */
  function TokenIn(part: Option<Section>): Js {
    if part.Some? then part.value.moodleUserToken else Undefined
  }

  function CourseIn(part: Option<Section>): Js {
    if part.Some? then part.value.moodleCourseId else Undefined
  }

  function Configurable(config: Option<RunConfig>): Option<Section> {
    if config.Some? then config.value.configurable else None
  }

  function Metadata(config: Option<RunConfig>): Option<Section> {
    if config.Some? then config.value.metadata else None
  }

  /** The user's token: the one in `configurable` when it is truthy, else the one in
      `metadata`. */
  function UserToken(config: Option<RunConfig>): (r: Js)
    ensures Truthy(r) <==> Truthy(TokenIn(Configurable(config))) || Truthy(TokenIn(Metadata(config)))
    ensures Truthy(TokenIn(Configurable(config))) ==> r == TokenIn(Configurable(config))
    ensures !Truthy(TokenIn(Configurable(config))) ==> r == TokenIn(Metadata(config))
  {
    Or(TokenIn(Configurable(config)), TokenIn(Metadata(config)))
  }

  /** The course already in context, chosen the same way as the token. */
  function AmbientCourse(config: Option<RunConfig>): (r: Js)
    ensures Truthy(CourseIn(Configurable(config))) ==> r == CourseIn(Configurable(config))
    ensures !Truthy(CourseIn(Configurable(config))) ==> r == CourseIn(Metadata(config))
  {
    Or(CourseIn(Configurable(config)), CourseIn(Metadata(config)))
  }

  /** Assigning `value` to field `key` of a payload; undefined leaves the field out. */
  function Put(p: Payload, key: string, value: Js): (q: Payload)
    ensures value != Undefined ==> key in q && q[key] == value
    ensures value == Undefined ==> key !in q
    ensures forall k :: k != key ==> (k in q <==> k in p)
    ensures forall k :: k != key && k in q ==> q[k] == p[k]
  {
    if value == Undefined then p - {key} else p[key := value]
  }

  // ---- refusals: answers given before any call ----

  datatype Refusal =
    | MissingToken(tool: string)   // the token error that names the tool
    | MissingConfigToken           // the token error without a tool name
    | MissingArgToken              // the token error of an adapter that takes the token as an argument
    | Ambiguous(tool: string)      // no activity identified
    | InvalidUrl(field: string)    // `new URL(...)` refused the argument

  /** The exact text each refusal answers with. */
  function RefusalText(e: Refusal): string {
    match e
    case MissingToken(tool) => "Erro: Token do utilizador não fornecido para a ferramenta " + tool + "."
    case MissingConfigToken => "Erro: Token do utilizador não fornecido para a ferramenta."
    case MissingArgToken => "Erro: Token do utilizador não fornecido."
    case Ambiguous(tool) =>
      "Erro: Para usar " + tool + ", forneça 'activity_id', OU ('course_id' E 'activity_name'). "
      + "Se o curso já estiver em contexto, apenas 'activity_name' pode ser suficiente."
    case InvalidUrl(field) => "Erro: O " + field + " fornecido não é um URL válido."
  }

  // ---- the activity tools ----

  /** The arguments of fetch_activity_content and get_activity_details. */
  datatype ActivityArgs = ActivityArgs(activityId: Option<int>, courseId: Option<int>, activityName: Option<string>)

  /** Whether the arguments, with the course in context, identify an activity: by id,
      by course and name, or by name inside the course in context. */
  predicate Identifies(args: ActivityArgs, ambient: Js) {
    args.activityId.Some? || (args.activityName.Some? && (args.courseId.Some? || ambient != Undefined))
  }

  /** FetchActivityContentTool._call up to the client call. */
  function FetchActivityContentPlan(args: ActivityArgs, config: Option<RunConfig>): (r: Result<Payload, Refusal>)
    ensures r.Success? <==> Truthy(UserToken(config)) && Identifies(args, AmbientCourse(config))
    ensures !Truthy(UserToken(config)) ==> r == Failure(MissingToken("fetch_activity_content"))
    ensures Truthy(UserToken(config)) && !Identifies(args, AmbientCourse(config)) ==>
      r == Failure(Ambiguous("fetch_activity_content"))
    ensures r.Success? && args.activityId.Some? ==>
            r.value == map["moodle_token" := UserToken(config), "activity_id" := Num(args.activityId.value)]
    ensures r.Success? && args.activityId.None? && args.courseId.Some? ==>
      r.value == map["moodle_token" := UserToken(config), "course_id" := Num(args.courseId.value),
                     "activity_name" := Str(args.activityName.value)]
    ensures r.Success? && args.activityId.None? && args.courseId.None? ==>
      r.value == map["moodle_token" := UserToken(config), "course_id" := AmbientCourse(config),
                     "activity_name" := Str(args.activityName.value)]
  {
    var token := UserToken(config);
    var ambient := AmbientCourse(config);
    if !Truthy(token) then Failure(MissingToken("fetch_activity_content"))
    else
      var base := map["moodle_token" := token];
      if args.activityId.Some? then
        Success(base["activity_id" := Num(args.activityId.value)])
      else if args.courseId.Some? && args.activityName.Some? then
        Success(base["course_id" := Num(args.courseId.value)]["activity_name" := Str(args.activityName.value)])
      else if ambient != Undefined && args.activityName.Some? then
        Success(base["course_id" := ambient]["activity_name" := Str(args.activityName.value)])
      else
        Failure(Ambiguous("fetch_activity_content"))
  }

  /** GetActivityDetailsTool._call up to the client call: the same choice, on a payload
      that starts out with the course in context. */
  function ActivityDetailsPlan(args: ActivityArgs, config: Option<RunConfig>): (r: Result<Payload, Refusal>)
    ensures r.Success? <==> Truthy(UserToken(config)) && Identifies(args, AmbientCourse(config))
    ensures !Truthy(UserToken(config)) ==> r == Failure(MissingToken("get_activity_details"))
    ensures Truthy(UserToken(config)) && !Identifies(args, AmbientCourse(config)) ==>
      r == Failure(Ambiguous("get_activity_details"))
    ensures r.Success? && args.activityId.Some? ==>
            r.value == Put(map["moodle_token" := UserToken(config)], "course_id", AmbientCourse(config))
                         ["activity_id" := Num(args.activityId.value)]
    ensures r.Success? && args.activityId.None? && args.courseId.Some? ==>
      r.value == map["moodle_token" := UserToken(config), "course_id" := Num(args.courseId.value),
                     "activity_name" := Str(args.activityName.value)]
    ensures r.Success? && args.activityId.None? && args.courseId.None? ==>
      r.value == map["moodle_token" := UserToken(config), "course_id" := AmbientCourse(config),
                     "activity_name" := Str(args.activityName.value)]
  {
    var token := UserToken(config);
    var ambient := AmbientCourse(config);
    if !Truthy(token) then Failure(MissingToken("get_activity_details"))
    else
      var seeded := Put(map["moodle_token" := token], "course_id", ambient);
      if args.activityId.Some? then
        Success(seeded["activity_id" := Num(args.activityId.value)])
      else if args.courseId.Some? && args.activityName.Some? then
        Success(seeded["course_id" := Num(args.courseId.value)]["activity_name" := Str(args.activityName.value)])
      else if ambient != Undefined && args.activityName.Some? then
        Success(seeded["course_id" := ambient]["activity_name" := Str(args.activityName.value)])
      else
        Failure(Ambiguous("get_activity_details"))
  }

  // ---- the remaining tools ----

  /** GetMoodleCoursesTool._call (src/tools) up to the client call; `filter` is None for
      a null or missing course_name_filter. */
  function CoursesPlan(filter: Option<string>, config: Option<RunConfig>): (r: Result<Payload, Refusal>)
    ensures r.Success? <==> Truthy(UserToken(config))
    ensures r.Failure? ==> r.error == MissingConfigToken
    ensures r.Success? ==> "moodle_token" in r.value && r.value["moodle_token"] == UserToken(config)
    ensures r.Success? ==> r.value.Keys <= {"moodle_token", "course_name_filter"}
    ensures r.Success? ==>
      ("course_name_filter" in r.value <==> filter.Some? && Trim(filter.value) != "")
    ensures r.Success? && "course_name_filter" in r.value ==>
      r.value["course_name_filter"] == Str(Trim(filter.value))
  {
    var token := UserToken(config);
    if !Truthy(token) then Failure(MissingConfigToken)
    else if filter.Some? && filter.value != "" && Trim(filter.value) != "" then
      Success(map["moodle_token" := token, "course_name_filter" := Str(Trim(filter.value))])
    else
      Success(map["moodle_token" := token])
  }

  /** GetCourseActivitiesTool._call up to the client call: the token is an argument. */
  function CourseActivitiesPlan(moodleToken: string, courseId: string): (r: Result<Payload, Refusal>)
    ensures r.Success? <==> moodleToken != ""
    ensures r.Failure? ==> r.error == MissingArgToken
    ensures r.Success? ==> r.value == map["moodle_token" := Str(moodleToken), "course_id" := Str(courseId)]
  {
    if moodleToken == "" then Failure(MissingArgToken)
    else Success(map["moodle_token" := Str(moodleToken), "course_id" := Str(courseId)])
  }

  /** GetResourceFileContentTool._call up to the client call; `validUrl` stands for
      `new URL(...)` accepting its argument. */
  function ResourceFilePlan(url: string, mimetype: string, config: Option<RunConfig>,
                            validUrl: string -> bool): (r: Result<Payload, Refusal>)
    ensures !Truthy(UserToken(config)) ==> r == Failure(MissingConfigToken)
    ensures Truthy(UserToken(config)) && !validUrl(url) ==> r == Failure(InvalidUrl("resource_file_url"))
    ensures r.Success? <==> Truthy(UserToken(config)) && validUrl(url)
    ensures r.Success? ==> r.value == map["moodle_token" := UserToken(config),
                                          "resource_file_url" := Str(url), "mimetype" := Str(mimetype)]
  {
    var token := UserToken(config);
    if !Truthy(token) then Failure(MissingConfigToken)
    else if !validUrl(url) then Failure(InvalidUrl("resource_file_url"))
    else Success(map["moodle_token" := token, "resource_file_url" := Str(url), "mimetype" := Str(mimetype)])
  }

  /** GetPageModuleContentTool._call up to the client call. */
  function PageModulePlan(url: string, config: Option<RunConfig>, validUrl: string -> bool): (r: Result<Payload, Refusal>)
    ensures !Truthy(UserToken(config)) ==> r == Failure(MissingConfigToken)
    ensures Truthy(UserToken(config)) && !validUrl(url) ==> r == Failure(InvalidUrl("page_content_url"))
    ensures r.Success? <==> Truthy(UserToken(config)) && validUrl(url)
    ensures r.Success? ==> r.value == map["moodle_token" := UserToken(config), "page_content_url" := Str(url)]
  {
    var token := UserToken(config);
    if !Truthy(token) then Failure(MissingConfigToken)
    else if !validUrl(url) then Failure(InvalidUrl("page_content_url"))
    else Success(map["moodle_token" := token, "page_content_url" := Str(url)])
  }

  /** GetMoodleCourseContentsTool._call up to the client call. */
  function CourseContentsPlan(courseId: int, config: Option<RunConfig>): (r: Result<Payload, Refusal>)
    ensures r.Success? <==> Truthy(UserToken(config))
    ensures r.Failure? ==> r.error == MissingConfigToken
    ensures r.Success? ==> r.value == map["moodle_token" := UserToken(config), "course_id" := Num(courseId)]
  {
    var token := UserToken(config);
    if !Truthy(token) then Failure(MissingConfigToken)
    else Success(map["moodle_token" := token, "course_id" := Num(courseId)])
  }

  /** The payload of both legacy GetMoodleCoursesTool classes: the schema hands `_call`
      the `input` field alone (None for null or undefined), a non-blank string goes out
      untrimmed as the filter, and no token is added. */
  function LegacyCoursesPlan(input: Option<string>): (p: Payload)
    ensures p.Keys <= {"course_name_filter"}
    ensures "course_name_filter" in p <==> input.Some? && Trim(input.value) != ""
    ensures "course_name_filter" in p ==> p["course_name_filter"] == Str(input.value)
  {
    if input.Some? && Trim(input.value) != "" then map["course_name_filter" := Str(input.value)] else map[]
  }

  // ---- calls and answers ----

  datatype ToolCall =
    | FetchActivityContent(activity: ActivityArgs)
    | GetActivityDetails(activity: ActivityArgs)
    | GetCourses(courseNameFilter: Option<string>)
    | GetCourseActivities(moodleToken: string, courseRef: string)
    | GetResourceFileContent(resourceFileUrl: string, mimetype: string)
    | GetPageModuleContent(pageContentUrl: string)
    | GetCourseContents(courseNumber: int)
    | LegacyGetCourses(input: Option<string>)

  function ToolName(call: ToolCall): string {
    match call
    case FetchActivityContent(_) => "fetch_activity_content"
    case GetActivityDetails(_) => "get_activity_details"
    case GetCourses(_) => "get_courses"
    case GetCourseActivities(_, _) => "get_course_activities"
    case GetResourceFileContent(_, _) => "get_resource_file_content"
    case GetPageModuleContent(_) => "get_page_module_content"
    case GetCourseContents(_) => "get_course_contents"
    case LegacyGetCourses(_) => "get_courses"
  }

  /** Each adapter's decision: a refusal to answer with at once, or the payload to send. */
  function Plan(call: ToolCall, config: Option<RunConfig>, validUrl: string -> bool): Result<Payload, Refusal> {
    match call
    case FetchActivityContent(args) => FetchActivityContentPlan(args, config)
    case GetActivityDetails(args) => ActivityDetailsPlan(args, config)
    case GetCourses(filter) => CoursesPlan(filter, config)
    case GetCourseActivities(token, courseId) => CourseActivitiesPlan(token, courseId)
    case GetResourceFileContent(url, mimetype) => ResourceFilePlan(url, mimetype, config, validUrl)
    case GetPageModuleContent(url) => PageModulePlan(url, config, validUrl)
    case GetCourseContents(courseId) => CourseContentsPlan(courseId, config)
    case LegacyGetCourses(input) => Success(LegacyCoursesPlan(input))
  }

  /** The text an adapter reports for a thrown value: the newer adapters use the
      message of an Error and the JSON text of anything else; the legacy classes use
      `message || JSON.stringify(error)`. */
  function FaultText(call: ToolCall, f: Fault): string {
    if call.LegacyGetCourses? then (if f.message != "" then f.message else f.json)
    else if f.isError then f.message
    else f.json
  }

  function ErrorPrefix(call: ToolCall): string {
    if call.LegacyGetCourses? then "Error in tool " + ToolName(call) + ": "
    else "Erro na ferramenta " + ToolName(call) + ": "
  }

  /** The answer once the client call has settled: its text unchanged, or the tool's
      error prefix and the fault's text. */
  function Answer(call: ToolCall, outcome: Result<string, Fault>): (s: string)
    ensures outcome.Success? ==> s == outcome.value
    ensures outcome.Failure? ==> s == ErrorPrefix(call) + FaultText(call, outcome.error)
  {
    match outcome
    case Success(text) => text
    case Failure(f) => ErrorPrefix(call) + FaultText(call, f)
  }

  /** A tool's `_call` against a client: an early error string leaves the client as it
      was; otherwise the payload goes out once under the tool's name and the answer is
      built from what the call settled with.  Every path returns a string. */
  method Invoke(c: MoodleMcpClient, call: ToolCall, config: Option<RunConfig>, validUrl: string -> bool,
                pipesOpen: bool, connectFault: Option<Fault>, reply: Server)
    returns (answer: string)
    requires c.Valid()
    modifies c
    ensures c.Valid()
    ensures Plan(call, config, validUrl).Failure? ==>
      answer == RefusalText(Plan(call, config, validUrl).error) && unchanged(c)
    ensures Plan(call, config, validUrl).Success? ==>
      var request := ToolRequest(ToolName(call), Plan(call, config, validUrl).value);
      && c.sent == old(c.sent) + (if Reaches(old(c.client) != null, pipesOpen, connectFault) then [request] else [])
      && answer == Answer(call, CallResult(old(c.client) != null, old(c.Ready()), pipesOpen, connectFault, request, reply))
    ensures Plan(call, config, validUrl).Success? && old(c.client) != null ==>
      c.client == old(c.client) && c.mcpServerProcess == old(c.mcpServerProcess)
      && c.spawned == old(c.spawned) && c.Ready() == old(c.Ready())
    ensures Plan(call, config, validUrl).Success? && old(c.client) == null ==>
      c.mcpServerProcess != null && fresh(c.mcpServerProcess)
      && c.spawned == old(c.spawned) + [c.mcpServerProcess] && (c.client != null <==> pipesOpen)
      && c.Ready() == (pipesOpen && connectFault.None?)
  {
    var plan := Plan(call, config, validUrl);
    if plan.Failure? {
      return RefusalText(plan.error);
    }
    var outcome := c.CallMcpTool(ToolName(call), plan.value, pipesOpen, connectFault, reply);
    answer := Answer(call, outcome);
  }

  // ---- properties across adapters ----

  /** Every adapter except the legacy ones sends the user's truthy token. */
  lemma PlanCarriesToken(call: ToolCall, config: Option<RunConfig>, validUrl: string -> bool)
    requires !call.LegacyGetCourses? && Plan(call, config, validUrl).Success?
    ensures var p := Plan(call, config, validUrl).value;
      "moodle_token" in p && Truthy(p["moodle_token"])
      && (!call.GetCourseActivities? ==> p["moodle_token"] == UserToken(config))
  {
    match call
    case FetchActivityContent(args) =>
    case GetActivityDetails(args) =>
      var p := Plan(call, config, validUrl).value;
      assert "moodle_token" in p;
    case GetCourses(filter) =>
    case GetCourseActivities(token, courseId) =>
    case GetResourceFileContent(url, mimetype) =>
    case GetPageModuleContent(url) =>
    case GetCourseContents(courseId) =>
  }

  /** Without a token in the config, every config-token adapter answers with its token
      error and sends nothing, whatever else it was given. */
  lemma TokenCheckedFirst(call: ToolCall, config: Option<RunConfig>, validUrl: string -> bool)
    requires !call.GetCourseActivities? && !call.LegacyGetCourses?
    requires !Truthy(UserToken(config))
    ensures Plan(call, config, validUrl) == Failure(
      if call.FetchActivityContent? || call.GetActivityDetails? then MissingToken(ToolName(call))
      else MissingConfigToken)
  {
  }

  /** The two activity tools decide alike; the details payload differs only by the
      course in context, which it carries whenever the content payload has no course. */
  lemma ActivityToolsAgree(args: ActivityArgs, config: Option<RunConfig>)
    ensures FetchActivityContentPlan(args, config).Success? <==> ActivityDetailsPlan(args, config).Success?
    ensures FetchActivityContentPlan(args, config).Success? ==>
      var p, q := FetchActivityContentPlan(args, config).value, ActivityDetailsPlan(args, config).value;
      q == if "course_id" in p then p else Put(p, "course_id", AmbientCourse(config))
  {
    var token, ambient := UserToken(config), AmbientCourse(config);
    if FetchActivityContentPlan(args, config).Success? && args.activityId.Some? {
      var p := FetchActivityContentPlan(args, config).value;
      var q := ActivityDetailsPlan(args, config).value;
      assert "course_id" !in p;
      assert q == Put(p, "course_id", ambient);
    }
  }

  /** A course filter that is sent has no white space at either end, is not empty and
      sits inside the argument with only white space around it. */
  lemma CoursesFilterIsTrimmed(filter: Option<string>, config: Option<RunConfig>)
    requires CoursesPlan(filter, config).Success?
    requires "course_name_filter" in CoursesPlan(filter, config).value
    ensures var sent := CoursesPlan(filter, config).value["course_name_filter"];
      && sent.Str? && sent.s != ""
      && !IsWhite(sent.s[0]) && !IsWhite(sent.s[|sent.s| - 1])
      && exists i :: OccursAt(sent.s, filter.value, i)
  {
    var f := filter.value;
    TrimIsSubstring(f);
    assert OccursAt(Trim(f), f, TrimStart(f));
  }

  /** A null filter, as the integration test passes it, sends the token alone. */
  lemma NullFilterSendsTokenOnly(config: Option<RunConfig>)
    requires Truthy(UserToken(config))
    ensures CoursesPlan(None, config) == Success(map["moodle_token" := UserToken(config)])
  {
  }

  /** A failure answer names the tool it came from. */
  lemma FailureNamesTool(call: ToolCall, f: Fault)
    ensures var s, name := Answer(call, Failure(f)), ToolName(call);
      exists i :: OccursAt(name, s, i)
  {
    var s, name := Answer(call, Failure(f)), ToolName(call);
    var lead := if call.LegacyGetCourses? then "Error in tool " else "Erro na ferramenta ";
    assert s == lead + name + ": " + FaultText(call, f);
    assert s[|lead|..|lead| + |name|] == name;
    assert OccursAt(name, s, |lead|);
  }
}
