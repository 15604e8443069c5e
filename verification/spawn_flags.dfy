/**
 The flags every Claude Code spawn carries. A session's model, effort, permission
 gate and tool lists are kept on the harness, because a respawn passes none.
 */
module SpawnFlags {
  import opened Options

  /** What a start request may set; lists absent (nil) and empty are kept apart. */
  datatype StartParams = StartParams(
    promptAndBlocks: bool, resume: bool,
    model: string, effort: string, settings: string, permissionMode: string,
    allowedTools: Option<seq<string>>, disabledTools: Option<seq<string>>, tools: Option<seq<string>>,
    oneOffs: OneOffs)

  /** Flags a start passes once and nothing keeps, in the six places they go between the kept ones. */
  datatype OneOffs = OneOffs(
    resume: seq<string>, prompt: seq<string>, place: seq<string>, budget: seq<string>,
    stream: seq<string>, sources: seq<string>)

  datatype Flag =
    | Model(model: string)
    | PermissionMode(mode: string)
    | Effort(effort: string)
    | DisallowedTool(name: string)
    | Tools(allowList: seq<string>)
    | Settings(settings: string)
    | OneOff(flag: string)

  /** How a start ends: before the spawn, in a failed spawn, or with a process. */
  datatype Fate = StoreFailed | SpawnFailed | Started

  /** What the session has been given: accepted starts (respawns among them), models and efforts. */
  datatype Given = StartGiven(params: StartParams) | ModelGiven(model: string) | EffortGiven(effort: string)

  /** A control request as Claude Code takes it; any other subtype leaves these three alone. */
  datatype Control =
    | ControlModel(model: string)
    | ControlMode(mode: string)
    | ControlEffort(effort: string)
    | OtherControl

  /** The fields of a control request's payload that name one of these three settings. */
  datatype Payload = Payload(model: Option<string>, mode: Option<string>, effortLevel: Option<string>)

  const NO_PAYLOAD := Payload(None, None, None)

  /** The control a request makes: its subtype says which field of the payload is read. */
  function ControlOf(subtype: string, payload: Payload): Control {
    if subtype == "set_model" && payload.model.Some? then ControlModel(payload.model.value)
    else if subtype == "set_permission_mode" && payload.mode.Some? then ControlMode(payload.mode.value)
    else if subtype == "apply_flag_settings" && payload.effortLevel.Some? then ControlEffort(payload.effortLevel.value)
    else OtherControl
  }

  /** What was done to a session: a recorded start and how it ended, an accepted change, an accepted control request. */
  datatype Deed =
    | StartDone(params: StartParams, fate: Fate)
    | ModelDone(model: string)
    | EffortDone(effort: string)
    | ControlDone(control: Control)

  /** What a spawn carries: its flags and its --allowed-tools. */
  datatype Spawn = Spawn(flags: seq<Flag>, allowedTools: seq<string>)

  /** What a message or a resume passes to start a dead session's process again. */
  function Respawn(resumeFlags: seq<string>): StartParams {
    StartParams(false, true, "", "", "", "", None, None, None, OneOffs(resumeFlags, [], [], [], [], []))
  }

  // ------------------------------------------------------------------
  // The latest of what was given

  function Latest<S, T>(given: seq<S>, pick: S -> Option<T>): Option<T> {
    if given == [] then None
    else
      var n := |given| - 1;
      if pick(given[n]).Some? then pick(given[n]) else Latest(given[..n], pick)
  }

  function NonEmpty(s: string): Option<string> {
    if s == "" then None else Some(s)
  }

  function GivenModel(g: Given): Option<string> {
    match g
    case StartGiven(p) => NonEmpty(p.model)
    case ModelGiven(model) => Some(model)
    case EffortGiven(_) => None
  }

  function GivenEffort(g: Given): Option<string> {
    match g
    case StartGiven(p) => NonEmpty(p.effort)
    case ModelGiven(_) => None
    case EffortGiven(effort) => Some(effort)
  }

  function GivenSettings(g: Given): Option<string> {
    if g.StartGiven? then NonEmpty(g.params.settings) else None
  }

  function GivenMode(g: Given): Option<string> {
    if g.StartGiven? then NonEmpty(g.params.permissionMode) else None
  }

  function GivenAllowed(g: Given): Option<seq<string>> {
    if g.StartGiven? then g.params.allowedTools else None
  }

  function GivenDisabled(g: Given): Option<seq<string>> {
    if g.StartGiven? then g.params.disabledTools else None
  }

  function GivenTools(g: Given): Option<seq<string>> {
    if g.StartGiven? then g.params.tools else None
  }

  function OrEmpty(s: Option<string>): string {
    if s.Some? then s.value else ""
  }

  lemma LatestAppend<S, T>(given: seq<S>, g: S, pick: S -> Option<T>)
    ensures Latest(given + [g], pick) == Newest(pick(g), Latest(given, pick))
  {
    assert (given + [g])[..|given|] == given;
  }

  /** g, where it sets the thing; else what was set before. */
  function Newest<T>(now: Option<T>, before: Option<T>): Option<T> {
    if now.Some? then now else before
  }

  lemma LatestAppends(given: seq<Given>, g: Given)
    ensures Latest(given + [g], GivenModel) == Newest(GivenModel(g), Latest(given, GivenModel))
    ensures Latest(given + [g], GivenEffort) == Newest(GivenEffort(g), Latest(given, GivenEffort))
    ensures Latest(given + [g], GivenSettings) == Newest(GivenSettings(g), Latest(given, GivenSettings))
    ensures Latest(given + [g], GivenMode) == Newest(GivenMode(g), Latest(given, GivenMode))
    ensures Latest(given + [g], GivenAllowed) == Newest(GivenAllowed(g), Latest(given, GivenAllowed))
    ensures Latest(given + [g], GivenDisabled) == Newest(GivenDisabled(g), Latest(given, GivenDisabled))
    ensures Latest(given + [g], GivenTools) == Newest(GivenTools(g), Latest(given, GivenTools))
  {
    hide Latest;
    LatestAppend(given, g, GivenModel);
    LatestAppend(given, g, GivenEffort);
    LatestAppend(given, g, GivenSettings);
    LatestAppend(given, g, GivenMode);
    LatestAppend(given, g, GivenAllowed);
    LatestAppend(given, g, GivenDisabled);
    LatestAppend(given, g, GivenTools);
  }

  // ------------------------------------------------------------------
  // What a spawn must carry

  /** Claude Code's name for a permission mode; anything not canonical passes through. */
  function TranslateMode(mode: string): string {
    if mode == "ask" then "default"
    else if mode == "auto" then "auto"
    else if mode == "bypass" then "bypassPermissions"
    else if mode == "plan" then "plan"
    else if mode in {"block_all", "read", "ask_all", "custom"} then "bypassPermissions"
    else mode
  }

  lemma TranslatedModeIsEmptyIff(mode: string)
    ensures TranslateMode(mode) == "" <==> mode == ""
  {
  }

  /** The kept flags among a spawn's, by kind. */
  datatype Kept = Kept(
    models: seq<string>, modes: seq<string>, efforts: seq<string>,
    disallowed: seq<string>, allowLists: seq<seq<string>>, settings: seq<string>)

  function With(k: Kept, f: Flag): Kept {
    match f
    case Model(m) => k.(models := k.models + [m])
    case PermissionMode(m) => k.(modes := k.modes + [m])
    case Effort(e) => k.(efforts := k.efforts + [e])
    case DisallowedTool(n) => k.(disallowed := k.disallowed + [n])
    case Tools(l) => k.(allowLists := k.allowLists + [l])
    case Settings(s) => k.(settings := k.settings + [s])
    case OneOff(_) => k
  }

  function KeptIn(flags: seq<Flag>): Kept {
    if flags == [] then Kept([], [], [], [], [], [])
    else With(KeptIn(flags[..|flags| - 1]), flags[|flags| - 1])
  }

  lemma KeptAppend(flags: seq<Flag>, f: Flag)
    ensures KeptIn(flags + [f]) == With(KeptIn(flags), f)
  {
    assert (flags + [f])[..|flags|] == flags;
  }

  function Once(s: string): seq<string> {
    if s == "" then [] else [s]
  }

  /**
   What was given, as flags: one permission mode always, the latest model or the
   process-wide default, the latest effort and settings if any, each disabled tool
   in order, and an allow list exactly when one was ever given, empty or not.
   */
  function Due(given: seq<Given>, defaultModel: string): Kept {
    DueOf(
      OrEmpty(Latest(given, GivenModel)),
      OrEmpty(Latest(given, GivenMode)),
      OrEmpty(Latest(given, GivenEffort)),
      Latest(given, GivenDisabled),
      Latest(given, GivenTools),
      OrEmpty(Latest(given, GivenSettings)),
      defaultModel)
  }

  function DueOf(
      model: string, mode: string, effort: string,
      disabled: Option<seq<string>>, tools: Option<seq<string>>, settings: string, defaultModel: string): Kept {
    Kept(
      Once(if model == "" then defaultModel else model),
      [if mode == "" then "bypassPermissions" else TranslateMode(mode)],
      Once(effort),
      if disabled.Some? then disabled.value else [],
      if tools.Some? then [tools.value] else [],
      Once(settings))
  }

  function AllowedDue(given: seq<Given>): seq<string> {
    var allowed := Latest(given, GivenAllowed);
    if allowed.Some? then allowed.value else []
  }

  predicate Carries(s: Spawn, given: seq<Given>, defaultModel: string) {
    KeptIn(s.flags) == Due(given, defaultModel) && s.allowedTools == AllowedDue(given)
  }

  // ------------------------------------------------------------------
  // What the live process runs on

  predicate Spawns(d: Deed) {
    d.StartDone? && d.fate == Started
  }

  /** What is remembered of what was done. */
  function GivenOf(deeds: seq<Deed>): seq<Given> {
    if deeds == [] then []
    else
      GivenOf(deeds[..|deeds| - 1]) + GivenBy(deeds[|deeds| - 1])
  }

  function GivenBy(d: Deed): seq<Given> {
    match d
    case StartDone(params, _) => [StartGiven(params)]
    case ModelDone(model) => [ModelGiven(model)]
    case EffortDone(effort) => [EffortGiven(effort)]
    case ControlDone(_) => []
  }

  lemma GivenOfSnoc(deeds: seq<Deed>, d: Deed)
    ensures GivenOf(deeds + [d]) == GivenOf(deeds) + GivenBy(d)
  {
    assert (deeds + [d])[..|deeds|] == deeds;
  }

  /** The three settings a control request can reach. */
  datatype Setting = TheModel | TheMode | TheEffort

  /** What a spawn now would set, "" for no flag. */
  function DueFor(s: Setting, given: seq<Given>, defaultModel: string): string {
    match s
    case TheModel =>
      var model := OrEmpty(Latest(given, GivenModel));
      if model == "" then defaultModel else model
    case TheMode =>
      var mode := OrEmpty(Latest(given, GivenMode));
      if mode == "" then "bypassPermissions" else TranslateMode(mode)
    case TheEffort => OrEmpty(Latest(given, GivenEffort))
  }

  /** The setting a remembered change that reaches the live process makes. */
  function SetBy(s: Setting, d: Deed): Option<string> {
    if s == TheModel && d.ModelDone? then Some(d.model)
    else if s == TheEffort && d.EffortDone? then Some(d.effort)
    else None
  }

  /** The setting a control request makes; only the live process hears of it. */
  function ControlBy(s: Setting, d: Deed): Option<string> {
    if !d.ControlDone? then None
    else match d.control
      case ControlModel(model) => if s == TheModel then Some(model) else None
      case ControlMode(mode) => if s == TheMode then Some(mode) else None
      case ControlEffort(effort) => if s == TheEffort then Some(effort) else None
      case OtherControl => None
  }

  /** The setting a start that spawned nothing gives; the live process, if any, does not hear of it. */
  function UnheardBy(s: Setting, d: Deed): Option<string> {
    if !d.StartDone? || Spawns(d) then None
    else match s
      case TheModel => NonEmpty(d.params.model)
      case TheMode => if d.params.permissionMode == "" then None else Some(TranslateMode(d.params.permissionMode))
      case TheEffort => NonEmpty(d.params.effort)
  }

  /** After this the live process and the next spawn agree on the setting. */
  predicate Aligns(s: Setting, d: Deed) {
    Spawns(d) || SetBy(s, d).Some?
  }

  /** What the live process runs on: its spawn's flag, or what it was told since. */
  function RunsOn(s: Setting, deeds: seq<Deed>, defaultModel: string): string {
    if deeds == [] then ""
    else
      var n := |deeds| - 1;
      var d := deeds[n];
      if Spawns(d) then DueFor(s, GivenOf(deeds), defaultModel)
      else if SetBy(s, d).Some? then SetBy(s, d).value
      else if ControlBy(s, d).Some? then ControlBy(s, d).value
      else RunsOn(s, deeds[..n], defaultModel)
  }

  predicate HasSpawned(deeds: seq<Deed>) {
    exists d :: d in deeds && Spawns(d)
  }

  lemma DeedsSnoc(deeds: seq<Deed>, d: Deed)
    ensures GivenOf(deeds + [d]) == GivenOf(deeds) + GivenBy(d)
    ensures HasSpawned(deeds + [d]) <==> HasSpawned(deeds) || Spawns(d)
    ensures ModelsNamed(deeds + [d]) <==> ModelsNamed(deeds) && (d.ModelDone? ==> d.model != "")
  {
    GivenOfSnoc(deeds, d);
    forall e
      ensures e in deeds + [d] <==> e in deeds || e == d
    {
    }
    if HasSpawned(deeds) {
      var e :| e in deeds && Spawns(e);
      assert e in deeds + [d];
    }
    if Spawns(d) {
      assert d in deeds + [d];
    }
    if ModelsNamed(deeds + [d]) && d.ModelDone? {
      assert d in deeds + [d];
    }
  }

  predicate ModelsNamed(deeds: seq<Deed>) {
    forall d | d in deeds && d.ModelDone? :: d.model != ""
  }

  // ------------------------------------------------------------------
  // The harness

  class Harness {
    const defaultModel: string
    var model: string
    var effort: string
    var settings: string
    var permissionMode: string
    var allowedTools: Option<seq<string>>
    var disabledTools: Option<seq<string>>
    var builtInToolAllowList: Option<seq<string>>
    var alive: bool
    var spawns: seq<Spawn>
    ghost var deeds: seq<Deed>
    ghost var given: seq<Given>
    ghost var givenBy: seq<nat>

    ghost predicate Remembers()
      reads `model, `effort, `settings, `permissionMode, `allowedTools, `disabledTools, `builtInToolAllowList, `given
    {
      && model == OrEmpty(Latest(given, GivenModel))
      && effort == OrEmpty(Latest(given, GivenEffort))
      && settings == OrEmpty(Latest(given, GivenSettings))
      && permissionMode == OrEmpty(Latest(given, GivenMode))
      && allowedTools == Latest(given, GivenAllowed)
      && disabledTools == Latest(given, GivenDisabled)
      && builtInToolAllowList == Latest(given, GivenTools)
    }

    /** How much had been given at each spawn, and that it carried the latest of all that. */
    ghost predicate SpawnsCarry()
      reads `spawns, `given, `givenBy
    {
      && |givenBy| == |spawns|
      && (forall i | 0 <= i < |spawns| :: givenBy[i] <= |given|)
      && forall i | 0 <= i < |spawns| :: Carries(spawns[i], given[..givenBy[i]], defaultModel)
    }

    /** The fields hold the latest of what was given, and every spawn carried what had been given by then. */
    ghost predicate Valid()
      reads this
    {
      && Remembers()
      && SpawnsCarry()
      && given == GivenOf(deeds)
      && ModelsNamed(deeds)
      && (alive ==> HasSpawned(deeds))
    }

    constructor (defaultModel: string)
      ensures Valid() && this.defaultModel == defaultModel
      ensures given == [] && deeds == [] && spawns == [] && givenBy == [] && !alive
    {
      this.defaultModel := defaultModel;
      model, effort, settings, permissionMode := "", "", "", "";
      allowedTools, disabledTools, builtInToolAllowList := None, None, None;
      alive, spawns, given, givenBy, deeds := false, [], [], [], [];
    }

    method AppendOneOffs(flags: seq<Flag>, names: seq<string>) returns (out: seq<Flag>)
      ensures KeptIn(out) == KeptIn(flags)
    {
      out := flags;
      for i := 0 to |names|
        invariant KeptIn(out) == KeptIn(flags)
      {
        KeptAppend(out, OneOff(names[i]));
        out := out + [OneOff(names[i])];
      }
    }

    /** Appends a flag if the session has one of its kind. */
    method AppendIf(present: bool, flags: seq<Flag>, f: Flag) returns (out: seq<Flag>)
      ensures KeptIn(out) == if present then With(KeptIn(flags), f) else KeptIn(flags)
      ensures out == if present then flags + [f] else flags
    {
      out := flags;
      if present {
        KeptAppend(flags, f);
        out := out + [f];
      }
    }

    /** disallowedToolsArgs: one flag per tool. */
    method AppendDisallowed(flags: seq<Flag>, tools: seq<string>) returns (out: seq<Flag>)
      ensures KeptIn(out) == KeptIn(flags).(disallowed := KeptIn(flags).disallowed + tools)
      ensures |out| == |flags| + |tools| && flags <= out
      ensures forall i | 0 <= i < |tools| :: out[|flags| + i] == DisallowedTool(tools[i])
    {
      out := flags;
      for i := 0 to |tools|
        invariant |out| == |flags| + i && flags <= out
        invariant forall k | 0 <= k < i :: out[|flags| + k] == DisallowedTool(tools[k])
        invariant KeptIn(out) == KeptIn(flags).(disallowed := KeptIn(flags).disallowed + tools[..i])
      {
        assert tools[..i + 1] == tools[..i] + [tools[i]];
        out := AppendIf(true, out, DisallowedTool(tools[i]));
      }
      assert tools[..|tools|] == tools;
    }

    /** handleStart's extraArgs, up to --effort. */
    method ChoiceFlags(oneOffs: OneOffs) returns (flags: seq<Flag>)
      ensures KeptIn(flags) == Kept(
                Once(if model == "" then defaultModel else model),
                Once(TranslateMode(permissionMode)), Once(effort), [], [], [])
    {
      assert KeptIn([]) == Kept([], [], [], [], [], []);
      hide KeptIn, TranslateMode;
      flags := AppendOneOffs([], oneOffs.resume);
      var modelForSpawn := if model != "" then model else defaultModel;
      flags := AppendIf(modelForSpawn != "", flags, Model(modelForSpawn));
      flags := AppendOneOffs(flags, oneOffs.prompt);
      var ccMode := TranslateMode(permissionMode);
      flags := AppendIf(ccMode != "", flags, PermissionMode(ccMode));
      flags := AppendOneOffs(flags, oneOffs.place);
      flags := AppendIf(effort != "", flags, Effort(effort));
    }

    /** A flag for each disabled tool, and one for the allow list if there is one. */
    method AppendToolLists(flags: seq<Flag>) returns (out: seq<Flag>)
      requires KeptIn(flags).disallowed == [] && KeptIn(flags).allowLists == []
      ensures KeptIn(out) == KeptIn(flags).(
                disallowed := if disabledTools.Some? then disabledTools.value else [],
                allowLists := if builtInToolAllowList.Some? then [builtInToolAllowList.value] else [])
    {
      hide KeptIn;
      out := AppendDisallowed(flags, if disabledTools.Some? then disabledTools.value else []);
      if builtInToolAllowList.Some? {
        out := AppendIf(true, out, Tools(builtInToolAllowList.value));
      }
    }

    /** handleStart's extraArgs. */
    method BuildFlags(oneOffs: OneOffs) returns (flags: seq<Flag>)
      ensures
        KeptIn(flags)
        == DueOf(model, permissionMode, effort, disabledTools, builtInToolAllowList, settings, defaultModel)
      ensures KeptIn(flags).disallowed == if disabledTools.Some? then disabledTools.value else []
      ensures KeptIn(flags).allowLists == if builtInToolAllowList.Some? then [builtInToolAllowList.value] else []
      ensures KeptIn(flags).settings == if settings != "" then [settings] else []
      ensures KeptIn(flags).efforts == if effort != "" then [effort] else []
      ensures permissionMode == "" ==> KeptIn(flags).modes == ["bypassPermissions"]
      ensures model != "" ==> KeptIn(flags).models == [model]
    {
      TranslatedModeIsEmptyIff(permissionMode);
      hide KeptIn, TranslateMode;
      flags := ChoiceFlags(oneOffs);
      flags := AppendOneOffs(flags, oneOffs.budget);
      flags := AppendToolLists(flags);
      flags := AppendOneOffs(flags, oneOffs.stream);
      flags := AppendIf(settings != "", flags, Settings(settings));
      flags := AppendOneOffs(flags, oneOffs.sources);
      flags := AppendIf(permissionMode == "", flags, PermissionMode("bypassPermissions"));
      assert KeptIn(flags).modes
          == [if permissionMode == "" then "bypassPermissions" else TranslateMode(permissionMode)];
    }

    /** Records what was given; earlier spawns still carry what they should. */
    ghost method Remember(g: Given)
      requires SpawnsCarry()
      modifies this`given
      ensures given == old(given) + [g] && SpawnsCarry()
    {
      forall i | 0 <= i < |spawns|
        ensures (given + [g])[..givenBy[i]] == given[..givenBy[i]]
      {
      }
      given := given + [g];
    }

    /** The fields a start updates, each only when the start sets it. */
    method KeepToolLists(p: StartParams)
      modifies this`allowedTools, this`disabledTools, this`builtInToolAllowList
      ensures allowedTools == if p.allowedTools.Some? then p.allowedTools else old(allowedTools)
      ensures disabledTools == if p.disabledTools.Some? then p.disabledTools else old(disabledTools)
      ensures builtInToolAllowList == if p.tools.Some? then p.tools else old(builtInToolAllowList)
    {
      if p.allowedTools.Some? {
        allowedTools := p.allowedTools;
      }
      if p.disabledTools.Some? {
        disabledTools := p.disabledTools;
      }
      if p.tools.Some? {
        builtInToolAllowList := p.tools;
      }
    }

    method KeepChoices(p: StartParams)
      modifies this`model, this`effort, this`settings, this`permissionMode
      ensures model == if p.model != "" then p.model else old(model)
      ensures effort == if p.effort != "" then p.effort else old(effort)
      ensures settings == if p.settings != "" then p.settings else old(settings)
      ensures permissionMode == if p.permissionMode != "" then p.permissionMode else old(permissionMode)
    {
      if p.model != "" {
        model := p.model;
      }
      if p.effort != "" {
        effort := p.effort;
      }
      if p.settings != "" {
        settings := p.settings;
      }
      if p.permissionMode != "" {
        permissionMode := p.permissionMode;
      }
    }

    method KeepParams(p: StartParams)
      requires Remembers() && SpawnsCarry()
      modifies this`model, this`effort, this`settings, this`permissionMode,
               this`allowedTools, this`disabledTools, this`builtInToolAllowList, this`given
      ensures Remembers() && SpawnsCarry() && given == old(given) + [StartGiven(p)]
      ensures model == if p.model != "" then p.model else old(model)
      ensures effort == if p.effort != "" then p.effort else old(effort)
      ensures settings == if p.settings != "" then p.settings else old(settings)
      ensures permissionMode == if p.permissionMode != "" then p.permissionMode else old(permissionMode)
      ensures allowedTools == if p.allowedTools.Some? then p.allowedTools else old(allowedTools)
      ensures disabledTools == if p.disabledTools.Some? then p.disabledTools else old(disabledTools)
      ensures builtInToolAllowList == if p.tools.Some? then p.tools else old(builtInToolAllowList)
    {
      hide Carries, Latest;
      KeepToolLists(p);
      KeepChoices(p);
      LatestAppends(given, StartGiven(p));
      Remember(StartGiven(p));
    }

    lemma DueIsRemembered()
      requires Remembers()
      ensures Due(given, defaultModel)
           == DueOf(model, permissionMode, effort, disabledTools, builtInToolAllowList, settings, defaultModel)
    {
      hide Latest;
    }

    lemma SpawnCarries(i: nat)
      requires Valid() && i < |spawns|
      ensures |givenBy| == |spawns| && givenBy[i] <= |given|
      ensures Carries(spawns[i], given[..givenBy[i]], defaultModel)
    {
    }

    method SpawnClaudeCode(flags: seq<Flag>)
      requires Remembers() && SpawnsCarry() && KeptIn(flags) == Due(given, defaultModel)
      modifies this`spawns, this`givenBy
      ensures SpawnsCarry()
      ensures |spawns| == |old(spawns)| + 1 && spawns[..|old(spawns)|] == old(spawns)
      ensures spawns[|old(spawns)|].flags == flags && givenBy == old(givenBy) + [|given|]
      ensures spawns[|old(spawns)|].allowedTools == if allowedTools.Some? then allowedTools.value else []
    {
      hide KeptIn, Latest, DueOf;
      spawns := spawns + [Spawn(flags, if allowedTools.Some? then allowedTools.value else [])];
      givenBy := givenBy + [|given|];
      assert given[..|given|] == given;
    }

    method HandleStart(p: StartParams, fate: Fate) returns (ok: bool)
      requires Valid()
      modifies this
      ensures Valid()
      ensures ok <==> !p.promptAndBlocks && fate == Started
      ensures given == if p.promptAndBlocks then old(given) else old(given) + [StartGiven(p)]
      ensures deeds == if p.promptAndBlocks then old(deeds) else old(deeds) + [StartDone(p, fate)]
      ensures p.promptAndBlocks || fate == StoreFailed ==>
                spawns == old(spawns) && givenBy == old(givenBy) && alive == old(alive)
      ensures !p.promptAndBlocks && fate != StoreFailed ==>
                && |spawns| == |old(spawns)| + 1 && spawns[..|old(spawns)|] == old(spawns)
                && givenBy == old(givenBy) + [|given|]
      ensures fate == Started && !p.promptAndBlocks ==> alive
      ensures !p.promptAndBlocks ==>
                && disabledTools == (if p.disabledTools.Some? then p.disabledTools else old(disabledTools))
                && builtInToolAllowList == (if p.tools.Some? then p.tools else old(builtInToolAllowList))
                && allowedTools == (if p.allowedTools.Some? then p.allowedTools else old(allowedTools))
                && permissionMode == (if p.permissionMode != "" then p.permissionMode else old(permissionMode))
                && settings == (if p.settings != "" then p.settings else old(settings))
                && model == (if p.model != "" then p.model else old(model))
                && effort == (if p.effort != "" then p.effort else old(effort))
      ensures !p.promptAndBlocks && fate != StoreFailed ==>
                var spawn := spawns[|old(spawns)|];
                && KeptIn(spawn.flags).disallowed == (if disabledTools.Some? then disabledTools.value else [])
                && KeptIn(spawn.flags).allowLists
                   == (if builtInToolAllowList.Some? then [builtInToolAllowList.value] else [])
                && spawn.allowedTools == (if allowedTools.Some? then allowedTools.value else [])
                && KeptIn(spawn.flags).settings == (if settings != "" then [settings] else [])
                && KeptIn(spawn.flags).efforts == (if effort != "" then [effort] else [])
                && (model != "" ==> KeptIn(spawn.flags).models == [model])
                && (permissionMode == "" ==> KeptIn(spawn.flags).modes == ["bypassPermissions"])
    {
      hide Remembers, SpawnsCarry, GivenOf, HasSpawned, ModelsNamed, KeptIn, Due, DueOf, Latest, Carries,
        TranslateMode, With;
      if p.promptAndBlocks {
        return false;
      }
      KeepParams(p);
      DeedsSnoc(deeds, StartDone(p, fate));
      deeds := deeds + [StartDone(p, fate)];
      var flags := BuildFlags(p.oneOffs);
      DueIsRemembered();
      if fate == StoreFailed {
        return false;
      }
      SpawnClaudeCode(flags);
      if fate == SpawnFailed {
        return false;
      }
      alive := true;
      return true;
    }

    /** The process goes away: it exits, or the idle watchdog kills it. */
    method Die()
      requires Valid()
      modifies this`alive
      ensures Valid() && !alive
    {
      alive := false;
    }

    /** A message respawns a dead process and otherwise leaves the flags alone. */
    method HandleMessage(contentAndBlocks: bool, resumeFlags: seq<string>, fate: Fate) returns (ok: bool)
      requires Valid()
      modifies this
      ensures Valid()
      ensures contentAndBlocks || old(alive) ==> given == old(given) && spawns == old(spawns) && alive == old(alive)
      ensures model == old(model) && effort == old(effort) && settings == old(settings)
      ensures permissionMode == old(permissionMode) && allowedTools == old(allowedTools)
      ensures disabledTools == old(disabledTools) && builtInToolAllowList == old(builtInToolAllowList)
      ensures !contentAndBlocks && !old(alive) ==> given == old(given) + [StartGiven(Respawn(resumeFlags))]
      ensures !contentAndBlocks && !old(alive) ==> deeds == old(deeds) + [StartDone(Respawn(resumeFlags), fate)]
      ensures !contentAndBlocks && !old(alive) && fate != StoreFailed ==>
                && |spawns| == |old(spawns)| + 1 && spawns[..|old(spawns)|] == old(spawns)
                && givenBy == old(givenBy) + [|given|]
    {
      if contentAndBlocks {
        return false;
      }
      if !alive {
        ok := HandleStart(Respawn(resumeFlags), fate);
        return;
      }
      return true;
    }

    method HandleResume(resumeFlags: seq<string>, fate: Fate) returns (ok: bool)
      requires Valid()
      modifies this
      ensures Valid()
      ensures old(alive) ==> given == old(given) && spawns == old(spawns)
      ensures model == old(model) && effort == old(effort) && settings == old(settings)
      ensures permissionMode == old(permissionMode) && allowedTools == old(allowedTools)
      ensures disabledTools == old(disabledTools) && builtInToolAllowList == old(builtInToolAllowList)
      ensures !old(alive) ==> given == old(given) + [StartGiven(Respawn(resumeFlags))]
      ensures !old(alive) ==> deeds == old(deeds) + [StartDone(Respawn(resumeFlags), fate)]
      ensures !old(alive) && fate != StoreFailed ==>
                && |spawns| == |old(spawns)| + 1 && spawns[..|old(spawns)|] == old(spawns)
                && givenBy == old(givenBy) + [|given|]
    {
      if alive {
        return true;
      }
      ok := HandleStart(Respawn(resumeFlags), fate);
    }

    /**
     handleControl: passed on to the live process and not remembered. `written` is
     whether the write to its stdin succeeds.
     */
    method HandleControl(subtype: string, payload: Payload, written: bool) returns (ok: bool)
      requires Valid()
      modifies this`deeds
      ensures Valid()
      ensures ok <==> alive && subtype != "" && written
      ensures deeds == if ok then old(deeds) + [ControlDone(ControlOf(subtype, payload))] else old(deeds)
      ensures ok && subtype == "set_model" && payload.model.Some? ==>
                deeds[|deeds| - 1] == ControlDone(ControlModel(payload.model.value))
      ensures ok && subtype == "set_permission_mode" && payload.mode.Some? ==>
                deeds[|deeds| - 1] == ControlDone(ControlMode(payload.mode.value))
      ensures ok && subtype == "apply_flag_settings" && payload.effortLevel.Some? ==>
                deeds[|deeds| - 1] == ControlDone(ControlEffort(payload.effortLevel.value))
      ensures ok && subtype !in {"set_model", "set_permission_mode", "apply_flag_settings"} ==>
                deeds[|deeds| - 1] == ControlDone(OtherControl)
    {
      hide Carries, Latest, HasSpawned, ModelsNamed, GivenOf;
      if !alive {
        return false;
      }
      if subtype == "" {
        return false;
      }
      if !written {
        return false;
      }
      DeedsSnoc(deeds, ControlDone(ControlOf(subtype, payload)));
      deeds := deeds + [ControlDone(ControlOf(subtype, payload))];
      return true;
    }

    /**
     handleSetModel: remembered once the process has been asked for it, whether or not
     asking for the resulting effort then succeeds (`asked`), which ok also needs.
     */
    method HandleSetModel(newModel: string, written: bool, asked: bool) returns (ok: bool)
      requires Valid()
      modifies this`model, this`given, this`deeds
      ensures Valid()
      ensures
        var kept := newModel != "" && alive && written;
        && (ok <==> kept && asked)
        && given == (if kept then old(given) + [ModelGiven(newModel)] else old(given))
        && deeds == (if kept then old(deeds) + [ModelDone(newModel)] else old(deeds))
        && model == (if kept then newModel else old(model))
    {
      hide Carries, Latest, HasSpawned, ModelsNamed, GivenOf;
      if newModel == "" {
        return false;
      }
      if !alive || !written {
        return false;
      }
      model := newModel;
      LatestAppends(given, ModelGiven(newModel));
      DeedsSnoc(deeds, ModelDone(newModel));
      Remember(ModelGiven(newModel));
      deeds := deeds + [ModelDone(newModel)];
      return asked;
    }

    method HandleSetEffort(newEffort: string, written: bool, asked: bool) returns (ok: bool)
      requires Valid()
      modifies this`effort, this`given, this`deeds
      ensures Valid()
      ensures
        var kept := alive && written;
        && (ok <==> kept && asked)
        && given == (if kept then old(given) + [EffortGiven(newEffort)] else old(given))
        && deeds == (if kept then old(deeds) + [EffortDone(newEffort)] else old(deeds))
        && effort == (if kept then newEffort else old(effort))
    {
      hide Carries, Latest, HasSpawned, ModelsNamed, GivenOf;
      if !alive || !written {
        return false;
      }
      effort := newEffort;
      LatestAppends(given, EffortGiven(newEffort));
      DeedsSnoc(deeds, EffortDone(newEffort));
      Remember(EffortGiven(newEffort));
      deeds := deeds + [EffortDone(newEffort)];
      return asked;
    }
  }

  // ------------------------------------------------------------------
  // What it comes to

  /** Every spawn has exactly one permission mode, and never an empty one. */
  lemma OneModeAlways(s: Spawn, given: seq<Given>, defaultModel: string)
    requires Carries(s, given, defaultModel)
    ensures |KeptIn(s.flags).modes| == 1 && KeptIn(s.flags).modes[0] != ""
  {
  }

  predicate IsRespawn(g: Given) {
    g.StartGiven? && g.params == Respawn(g.params.oneOffs.resume)
  }

  /** Respawns change nothing that is due: however many, the gate stays the one last given. */
  lemma {:induction false} RespawnsKeepWhatIsDue(given: seq<Given>, respawns: seq<Given>, defaultModel: string)
    requires forall g | g in respawns :: IsRespawn(g)
    ensures Due(given + respawns, defaultModel) == Due(given, defaultModel)
    ensures AllowedDue(given + respawns) == AllowedDue(given)
  {
    hide Latest;
    if respawns == [] {
      assert given + respawns == given;
    } else {
      var n := |respawns| - 1;
      RespawnsKeepWhatIsDue(given, respawns[..n], defaultModel);
      assert given + respawns == (given + respawns[..n]) + [respawns[n]];
      LatestAppends(given + respawns[..n], respawns[n]);
      assert IsRespawn(respawns[n]);
    }
  }

  // ------------------------------------------------------------------
  // When a respawn runs on what the live process did

  /** What a deed that is remembered makes the next spawn set. */
  function DueBy(s: Setting, d: Deed): Option<string> {
    if Spawns(d) then
      match s
      case TheModel => NonEmpty(d.params.model)
      case TheMode => if d.params.permissionMode == "" then None else Some(TranslateMode(d.params.permissionMode))
      case TheEffort => NonEmpty(d.params.effort)
    else Newest(SetBy(s, d), UnheardBy(s, d))
  }

  lemma DueSnoc(s: Setting, deeds: seq<Deed>, d: Deed, defaultModel: string)
    requires d.ModelDone? ==> d.model != ""
    ensures DueFor(s, GivenOf(deeds + [d]), defaultModel)
         == if DueBy(s, d).Some? then DueBy(s, d).value else DueFor(s, GivenOf(deeds), defaultModel)
  {
    hide Latest, TranslateMode, GivenOf;
    GivenOfSnoc(deeds, d);
    var given := GivenOf(deeds);
    if d.ControlDone? {
      assert given + [] == given;
    } else {
      var g := GivenBy(d)[0];
      match s {
        case TheModel => LatestAppend(given, g, GivenModel);
        case TheMode => LatestAppend(given, g, GivenMode);
        case TheEffort => LatestAppend(given, g, GivenEffort);
      }
    }
  }

  function Else(now: Option<string>, otherwise: string): string {
    if now.Some? then now.value else otherwise
  }

  /** Since they last agreed, the live process heard only controls and the record only starts that spawned nothing. */
  lemma {:induction false} SinceAligned(s: Setting, deeds: seq<Deed>, later: seq<Deed>, defaultModel: string)
    requires deeds != [] && Aligns(s, deeds[|deeds| - 1])
    requires ModelsNamed(deeds + later)
    requires forall d | d in later :: !Aligns(s, d)
    ensures
      var base := DueFor(s, GivenOf(deeds), defaultModel);
      && RunsOn(s, deeds + later, defaultModel) == Else(Latest(later, d => ControlBy(s, d)), base)
      && DueFor(s, GivenOf(deeds + later), defaultModel) == Else(Latest(later, d => UnheardBy(s, d)), base)
  {
    var n := |later| - 1;
    if later == [] {
      assert deeds + later == deeds;
      AlignedNow(s, deeds, defaultModel);
    } else {
      var all := deeds + later;
      var d := later[n];
      assert all == (deeds + later[..n]) + [d] && all[..|all| - 1] == deeds + later[..n] && all[|all| - 1] == d;
      assert d in later && d in all;
      assert forall e | e in deeds + later[..n] :: e in all;
      SinceAligned(s, deeds, later[..n], defaultModel);
      DueSnoc(s, deeds + later[..n], d, defaultModel);
    }
  }

  lemma AlignedNow(s: Setting, deeds: seq<Deed>, defaultModel: string)
    requires deeds != [] && Aligns(s, deeds[|deeds| - 1]) && ModelsNamed(deeds)
    ensures RunsOn(s, deeds, defaultModel) == DueFor(s, GivenOf(deeds), defaultModel)
  {
    var n := |deeds| - 1;
    assert deeds[n] in deeds;
    if !Spawns(deeds[n]) {
      assert deeds == deeds[..n] + [deeds[n]];
      DueSnoc(s, deeds[..n], deeds[n], defaultModel);
    }
  }

  /**
   A respawn sets a model, mode or effort as the live process has it if and only if,
   since the last spawn or remembered change of that setting, the latest control
   request to name it, if any, named what a respawn sets, and, without one, no start
   that spawned nothing gave another.
   */
  lemma RespawnKeepsSettingIff(s: Setting, deeds: seq<Deed>, i: nat, defaultModel: string)
    requires i < |deeds| && Aligns(s, deeds[i]) && ModelsNamed(deeds)
    requires forall j | i < j < |deeds| :: !Aligns(s, deeds[j])
    ensures
      var base := DueFor(s, GivenOf(deeds[..i + 1]), defaultModel);
      var told := Latest(deeds[i + 1..], d => ControlBy(s, d));
      var unheard := Latest(deeds[i + 1..], d => UnheardBy(s, d));
      && (RunsOn(s, deeds, defaultModel) == DueFor(s, GivenOf(deeds), defaultModel)
          <==> Else(told, base) == Else(unheard, base))
      && (unheard.None? ==>
            (RunsOn(s, deeds, defaultModel) == DueFor(s, GivenOf(deeds), defaultModel)
             <==> told.None? || told.value == base))
  {
    var first, later := deeds[..i + 1], deeds[i + 1..];
    assert deeds == first + later;
    SinceAligned(s, first, later, defaultModel);
  }

  /** What is due for each setting is what the flags of a spawn say. */
  lemma FlagsSayWhatIsDue(spawn: Spawn, given: seq<Given>, defaultModel: string)
    requires Carries(spawn, given, defaultModel)
    ensures KeptIn(spawn.flags).models == Once(DueFor(TheModel, given, defaultModel))
    ensures KeptIn(spawn.flags).modes == [DueFor(TheMode, given, defaultModel)]
    ensures KeptIn(spawn.flags).efforts == Once(DueFor(TheEffort, given, defaultModel))
  {
    hide KeptIn, Latest;
  }

  /** The latest of what was given is the last one that sets the thing. */
  lemma {:induction false} LatestIff<S, T>(given: seq<S>, pick: S -> Option<T>, value: T)
    ensures Latest(given, pick) == Some(value)
       <==> exists i ::
              0 <= i < |given| && pick(given[i]) == Some(value) && forall j | i < j < |given| :: pick(given[j]).None?
    ensures Latest(given, pick).None? <==> forall i | 0 <= i < |given| :: pick(given[i]).None?
  {
    if given != [] {
      var n := |given| - 1;
      LatestIff(given[..n], pick, value);
      if pick(given[n]).None? {
        assert forall i | 0 <= i < n :: given[..n][i] == given[i];
        if i :| 0 <= i < n && pick(given[..n][i]) == Some(value) && forall j | i < j < n :: pick(given[..n][j]).None? {
          assert pick(given[i]) == Some(value);
        }
        if i :| 0 <= i < |given| && pick(given[i]) == Some(value)
                && forall j | i < j < |given| :: pick(given[j]).None? {
          assert pick(given[..n][i]) == Some(value);
        }
      }
    }
  }

  /** The kept flags by kind are the flags themselves. */
  lemma {:induction false} KeptAreFlags(flags: seq<Flag>, s: string, l: seq<string>)
    ensures s in KeptIn(flags).models <==> Model(s) in flags
    ensures s in KeptIn(flags).modes <==> PermissionMode(s) in flags
    ensures s in KeptIn(flags).efforts <==> Effort(s) in flags
    ensures s in KeptIn(flags).disallowed <==> DisallowedTool(s) in flags
    ensures l in KeptIn(flags).allowLists <==> Tools(l) in flags
    ensures s in KeptIn(flags).settings <==> Settings(s) in flags
  {
    if flags != [] {
      var n := |flags| - 1;
      KeptAreFlags(flags[..n], s, l);
      assert forall f :: f in flags <==> f in flags[..n] || f == flags[n];
    }
  }

  /**
   So a spawn disallows exactly the tools last disabled, passes the allow list, the
   settings and the allowed tools last given, and none that was not given.
   */
  lemma FlagsSayWhatWasGiven(spawn: Spawn, given: seq<Given>, defaultModel: string, s: string, l: seq<string>)
    requires Carries(spawn, given, defaultModel)
    ensures
      var disabled, tools := Latest(given, GivenDisabled), Latest(given, GivenTools);
      var allowed, settings := Latest(given, GivenAllowed), Latest(given, GivenSettings);
      && KeptIn(spawn.flags).disallowed == (if disabled.Some? then disabled.value else [])
      && (DisallowedTool(s) in spawn.flags <==> disabled.Some? && s in disabled.value)
      && KeptIn(spawn.flags).allowLists == (if tools.Some? then [tools.value] else [])
      && (Tools(l) in spawn.flags <==> tools == Some(l))
      && (Settings(s) in spawn.flags <==> settings == Some(s) && s != "")
      && spawn.allowedTools == (if allowed.Some? then allowed.value else [])
    ensures Model(s) in spawn.flags <==> s != "" && s == DueFor(TheModel, given, defaultModel)
    ensures PermissionMode(s) in spawn.flags <==> s == DueFor(TheMode, given, defaultModel)
    ensures Effort(s) in spawn.flags <==> s != "" && s == DueFor(TheEffort, given, defaultModel)
  {
    hide KeptIn, Latest;
    KeptAreFlags(spawn.flags, s, l);
  }

  /** Claude Code's names for the bridge's modes; those it has none for are left to the hook. */
  lemma ModesAreTranslated(mode: string)
    ensures mode in {"block_all", "read", "ask_all", "custom", "bypass"} <==>
              TranslateMode(mode) == "bypassPermissions" && mode != "bypassPermissions"
    ensures TranslateMode(mode) == "plan" <==> mode == "plan"
    ensures TranslateMode(mode) == "auto" <==> mode == "auto"
    ensures TranslateMode(mode) == "default" <==> mode in {"ask", "default"}
    ensures mode !in {"ask", "auto", "bypass", "plan", "block_all", "read", "ask_all", "custom"} ==>
              TranslateMode(mode) == mode
  {
  }

  /** A start and two control requests, one that changes the mode and one that changes the model. */
  method StartAndControl(p: StartParams, model: string, mode: string, defaultModel: string) returns (h: Harness)
    requires !p.promptAndBlocks
    ensures fresh(h) && h.Valid() && h.defaultModel == defaultModel
    ensures |h.spawns| == 1 && h.given == [StartGiven(p)] && h.givenBy == [1]
    ensures h.deeds == [StartDone(p, Started), ControlDone(ControlMode(mode)), ControlDone(ControlModel(model))]
  {
    hide Latest, KeptIn, Carries, GivenOf, Respawn, ModelsNamed, HasSpawned, ControlOf,
      Harness.Remembers, Harness.SpawnsCarry, Harness.Valid;
    h := new Harness(defaultModel);
    var _ := h.HandleStart(p, Started);
    var _ := h.HandleControl("set_permission_mode", NO_PAYLOAD.(mode := Some(mode)), true);
    var _ := h.HandleControl("set_model", NO_PAYLOAD.(model := Some(model)), true);
  }

  /**
   The failing run: a start, a control request that changes the mode and one that
   changes the model, death, resume. The second spawn carries the flags of the first,
   whatever the process had been told.
   */
  method RespawnForgetsControls(p: StartParams, model: string, mode: string, defaultModel: string)
    returns (h: Harness)
    requires !p.promptAndBlocks
    ensures h.Valid() && |h.spawns| == 2
    ensures KeptIn(h.spawns[1].flags) == KeptIn(h.spawns[0].flags)
    ensures h.deeds == [ StartDone(p, Started), ControlDone(ControlMode(mode)), ControlDone(ControlModel(model)),
                         StartDone(Respawn([]), Started) ]
    ensures RunsOn(TheMode, h.deeds[..3], defaultModel) == mode
    ensures RunsOn(TheModel, h.deeds[..3], defaultModel) == model
  {
    hide Latest, KeptIn, Carries, GivenOf, RunsOn, Respawn, ModelsNamed, HasSpawned,
      Harness.Remembers, Harness.SpawnsCarry, Harness.Valid;
    h := StartAndControl(p, model, mode, defaultModel);
    h.Die();
    var _ := h.HandleResume([], Started);
    ghost var given := [StartGiven(p)];
    assert h.given == given + [StartGiven(Respawn([]))];
    assert h.givenBy == [1, 2];
    assert h.given[..1] == given && h.given[..2] == h.given;
    h.SpawnCarries(0);
    h.SpawnCarries(1);
    RespawnCarriesTheSame(h.spawns[0], h.spawns[1], given, defaultModel);
    ControlsAreHeard(h.deeds, model, mode, defaultModel);
  }

  lemma RespawnCarriesTheSame(a: Spawn, b: Spawn, given: seq<Given>, defaultModel: string)
    requires Carries(a, given, defaultModel) && Carries(b, given + [StartGiven(Respawn([]))], defaultModel)
    ensures KeptIn(a.flags) == KeptIn(b.flags)
  {
    hide Latest, KeptIn, Due;
    RespawnGivesNothing([]);
    RespawnsKeepWhatIsDue(given, [StartGiven(Respawn([]))], defaultModel);
  }

  lemma RespawnGivesNothing(resumeFlags: seq<string>)
    ensures IsRespawn(StartGiven(Respawn(resumeFlags)))
  {
  }

  lemma ControlsAreHeard(deeds: seq<Deed>, model: string, mode: string, defaultModel: string)
    requires |deeds| >= 3
    requires deeds[1] == ControlDone(ControlMode(mode)) && deeds[2] == ControlDone(ControlModel(model))
    ensures RunsOn(TheMode, deeds[..3], defaultModel) == mode
    ensures RunsOn(TheModel, deeds[..3], defaultModel) == model
  {
    assert deeds[..3][..2] == deeds[..2];
  }
}
