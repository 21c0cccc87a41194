/**
 * The account-linking flow of the homebridge-nest-cam settings dialog, as a
 * state machine over values.
 *
 * A `State` holds everything the dialog component keeps: the flow flags and
 * messages (`Session`), the plugin configuration list together with the
 * `nestConfig` record it aliases (`Store`), and logs standing in for the side
 * effects on the socket, the config-save endpoint and the modal (`Effects`).
 * Each inbound socket event and each user action is one function from the
 * state before to the state after.
 */
module LinkFlow {
  import opened Wrappers

  /** The field the linking agent currently asks for. */
  datatype Step = Username | Password | Totp

  /** The credential bundle the agent sends with `credentials`; stored verbatim. */
  datatype GoogleAuth = GoogleAuth(issueToken: Option<string>, cookies: Option<string>, others: map<string, string>)

  /**
   * One plugin configuration record: its `platform` discriminator, its
   * `googleAuth` key (absent after `delete`), and the remaining keys, which
   * only the schema-driven form edits.
   */
  datatype Config = Config(platform: Option<string>, googleAuth: Option<GoogleAuth>, settings: map<string, string>)

  /**
   * The plugin configuration list and the `nestConfig` object it shares.
   * `tail == None` is the empty list; `tail == Some(rest)` is the list whose
   * first element IS `nest` (the same object) followed by `rest`. This is the
   * only shape the component ever gives the list once it is initialised.
   */
  datatype Store = Store(nest: Config, tail: Option<seq<Config>>)

  /** The value of the three-field linking form. */
  datatype FormValue = FormValue(username: string, password: string, totp: string)

  /** The flow fields of the component; `form == None` is a form not built yet. */
  datatype Session = Session(
    currentStep: Option<Step>,
    fieldErrorMessage: string,
    waiting: bool,
    waitingMessage: string,
    doingAccountLinking: bool,
    accountLinkingError: bool,
    accountLinkingErrorMessage: string,
    form: Option<FormValue>)

  /**
   * Events the component emits on the socket. `StepAnswer(None, v)` is an
   * emit whose event name is `undefined`.
   */
  datatype Outbound = LinkAccountRequest | CancelRequest | StepAnswer(step: Option<Step>, value: FormValue)

  /** Events the linking agent pushes on the socket. */
  datatype Inbound =
    | ServerError(message: string)
    | BrowserClosed(message: string)
    | Disconnect
    | StepPrompt(step: Step)
    | Credentials(auth: GoogleAuth)

  /** What the component did to the outside world, in order. */
  datatype Effects = Effects(outbox: seq<Outbound>, saves: seq<seq<Config>>, modalCloses: nat, configUpdates: nat)

  datatype State = State(alias: string, alreadyConfigured: bool, session: Session, store: Store, effects: Effects)

  const LoggingInMessage: string := "Logging in, please wait..."
  const SettingUpMessage: string := "Setting things up, please wait..."
  const DisconnectedMessage: string := "Server Disconnected."
  const EmptyForm: FormValue := FormValue("", "", "")

  /** The flow fields as the component's field initialisers leave them. */
  const IdleSession: Session := Session(None, "", false, "", false, false, "", None)
  const NoEffects: Effects := Effects([], [], 0, 0)

  /** The message shown when the agent asks for the same step twice in a row. */
  function RetryMessage(step: Step): (m: string)
    ensures m != ""
  {
    match step
    case Username => "Couldn't find your Google Account"
    case Password => "Wrong password. Try again."
    case Totp => "Wrong code. Try again."
  }

  /** JavaScript truthiness of an optional string key. */
  predicate Truthy(v: Option<string>) {
    v.Some? && v.value != ""
  }

  /** A credential bundle with both a truthy `issueToken` and truthy `cookies`. */
  predicate Complete(auth: Option<GoogleAuth>) {
    auth.Some? && Truthy(auth.value.issueToken) && Truthy(auth.value.cookies)
  }

  /** The list the component holds in `pluginConfig`, as values. */
  function Entries(st: Store): (list: seq<Config>)
    ensures list != [] <==> st.tail.Some?
    ensures list != [] ==> list[0] == st.nest && list[1..] == st.tail.value
  {
    match st.tail
    case None => []
    case Some(rest) => [st.nest] + rest
  }

  /** The `showLinkAccount` getter: whether the dialog offers automated linking. */
  function ShowLinkAccount(s: State): (shown: bool)
    ensures Complete(s.store.nest.googleAuth) ==> !shown
    ensures shown ==> !s.alreadyConfigured && !s.session.accountLinkingError
    ensures !s.alreadyConfigured && !Complete(s.store.nest.googleAuth) ==> (shown <==> !s.session.accountLinkingError)
  {
    if s.alreadyConfigured then false
    else if Complete(s.store.nest.googleAuth) then false
    else !s.session.accountLinkingError
  }

  /**
   * `ngOnInit`'s normalisation: an empty list gets a fresh record naming the
   * platform, the first record becomes `nestConfig`, and a dialog that would
   * not offer linking is marked as already configured.
   */
  function Init(input: seq<Config>, alias: string): (s: State)
    ensures Entries(s.store) == if input == [] then [Config(Some(alias), None, map[])] else input
    ensures s.store.tail.Some? && s.store.nest == Entries(s.store)[0]
    ensures s.alreadyConfigured <==> !ShowLinkAccount(s.(alreadyConfigured := false))
    ensures s.alreadyConfigured <==> Complete(s.store.nest.googleAuth)
    ensures ShowLinkAccount(s) <==> !s.alreadyConfigured
    ensures s.alias == alias && s.session == IdleSession && s.effects == NoEffects
  {
    var list := if input == [] then [Config(Some(alias), None, map[])] else input;
    var before := State(alias, false, IdleSession, Store(list[0], Some(list[1..])), NoEffects);
    if !ShowLinkAccount(before) then before.(alreadyConfigured := true) else before
  }

  /** The `server_error` handler: applies whether or not a flow is in flight. */
  function OnServerError(s: State, message: string): (t: State)
    ensures t.session.accountLinkingError && t.session.accountLinkingErrorMessage == message
    ensures !ShowLinkAccount(t)
    ensures t.session.(accountLinkingError := s.session.accountLinkingError,
                       accountLinkingErrorMessage := s.session.accountLinkingErrorMessage) == s.session
    ensures t.(session := s.session) == s
  {
    s.(session := s.session.(accountLinkingError := true, accountLinkingErrorMessage := message))
  }

  /** The `browser_closed` handler: a `server_error` while a flow is in flight, else nothing. */
  function OnBrowserClosed(s: State, message: string): (t: State)
    ensures !s.session.doingAccountLinking ==> t == s
    ensures s.session.doingAccountLinking ==> t == OnServerError(s, message)
    ensures s.session.doingAccountLinking ==> !ShowLinkAccount(t)
  {
    if s.session.doingAccountLinking then OnServerError(s, message) else s
  }

  /** The `disconnect` handler: a fixed error while a flow is in flight, else nothing. */
  function OnDisconnect(s: State): (t: State)
    ensures !s.session.doingAccountLinking ==> t == s
    ensures s.session.doingAccountLinking ==> t == OnServerError(s, DisconnectedMessage)
    ensures s.session.doingAccountLinking ==> !ShowLinkAccount(t)
  {
    if s.session.doingAccountLinking then OnServerError(s, DisconnectedMessage) else s
  }

  /**
   * The `username`, `password` and `totp` handlers, on the flow fields.
   * Asking again for the step already pending means the previous answer was
   * rejected. Before `linkAccount` has built the form, registering the
   * field's validator throws, after the field message has been cleared and
   * before anything else.
   */
  function PromptSession(c: Session, step: Step): (d: Session)
    ensures d.(currentStep := c.currentStep, fieldErrorMessage := c.fieldErrorMessage,
               waiting := c.waiting, waitingMessage := c.waitingMessage) == c
    ensures c.form.None? ==> d == c.(fieldErrorMessage := "")
    ensures c.form.Some? ==> d.currentStep == Some(step) && !d.waiting
    ensures c.form.Some? ==> (d.fieldErrorMessage != "" <==> c.currentStep == Some(step))
    ensures c.form.Some? && c.currentStep == Some(step) ==> d.fieldErrorMessage == RetryMessage(step)
    ensures c.form.Some? ==> d.waitingMessage == if step == Username then LoggingInMessage else c.waitingMessage
  {
    var cleared := c.(fieldErrorMessage := "");
    if cleared.form.None? then
      cleared
    else
      var message := if c.currentStep == Some(step) then RetryMessage(step) else "";
      var next := cleared.(fieldErrorMessage := message, currentStep := Some(step), waiting := false);
      if step == Username then next.(waitingMessage := LoggingInMessage) else next
  }

  /** A step prompt touches the flow fields only, so it never changes whether linking is offered. */
  function OnStepPrompt(s: State, step: Step): (t: State)
    ensures t.(session := s.session) == s
    ensures ShowLinkAccount(t) == ShowLinkAccount(s)
  {
    s.(session := PromptSession(s.session, step))
  }

  /**
   * `updateConfig`: name the platform on `nestConfig` and put it back into
   * the list when the list is empty.
   */
  function UpdateConfig(s: State): (t: State)
    ensures t.store.nest == s.store.nest.(platform := Some(s.alias))
    ensures Entries(t.store) == [t.store.nest] + if s.store.tail.Some? then Entries(s.store)[1..] else []
    ensures t.(store := s.store) == s
  {
    var nest := s.store.nest.(platform := Some(s.alias));
    s.(store := Store(nest, if s.store.tail.None? then Some([]) else s.store.tail))
  }

  /** `saveConfig`: the list as it is now is written out; nothing in memory changes. */
  function SaveConfig(s: State): (t: State)
    ensures t.effects.saves == s.effects.saves + [Entries(s.store)]
    ensures t.(effects := s.effects) == s && t.effects.(saves := s.effects.saves) == s.effects
  {
    s.(effects := s.effects.(saves := s.effects.saves + [Entries(s.store)]))
  }

  /**
   * The `credentials` handler: the flow ends, the bundle is stored verbatim
   * in `nestConfig`, the list is made to hold `nestConfig`, and it is saved
   * once. Before the form exists the handler throws at its first statement.
   */
  function OnCredentials(s: State, auth: GoogleAuth): (t: State)
    ensures s.session.form.None? ==> t == s
    ensures s.session.form.Some? ==>
              && t.store.nest == s.store.nest.(platform := Some(s.alias), googleAuth := Some(auth))
              && Entries(t.store) == [t.store.nest] + (if s.store.tail.Some? then Entries(s.store)[1..] else [])
              && t.effects.saves == s.effects.saves + [Entries(t.store)]
              && t.session.currentStep.None? && !t.session.waiting && !t.session.doingAccountLinking
              && t.session.accountLinkingError == s.session.accountLinkingError
              && t.effects.outbox == s.effects.outbox && t.effects.modalCloses == s.effects.modalCloses
              && t.alreadyConfigured == s.alreadyConfigured
    ensures t.session.(currentStep := s.session.currentStep, waiting := s.session.waiting,
                       doingAccountLinking := s.session.doingAccountLinking) == s.session
    ensures t.alias == s.alias && t.effects.configUpdates == s.effects.configUpdates
    ensures s.session.form.Some? && Complete(Some(auth)) ==> !ShowLinkAccount(t)
  {
    if s.session.form.None? then s
    else
      var answered := s.(session := s.session.(currentStep := None, waiting := false, doingAccountLinking := false),
                         store := s.store.(nest := s.store.nest.(googleAuth := Some(auth))));
      SaveConfig(UpdateConfig(answered))
  }

  /**
   * `linkAccountManually`: give up on automated linking; the record is put
   * back into the list (not saved), the agent is told to cancel, and the
   * linking UI is not offered again.
   */
  function LinkAccountManually(s: State): (t: State)
    ensures t.effects.outbox == s.effects.outbox + [CancelRequest]
    ensures t.session.currentStep.None? && !t.session.doingAccountLinking && t.alreadyConfigured
    ensures !ShowLinkAccount(t)
    ensures Entries(t.store) != [] && Entries(t.store)[0] == t.store.nest
    ensures t.store == UpdateConfig(s).store
    ensures t.effects.saves == s.effects.saves && t.effects.modalCloses == s.effects.modalCloses
    ensures t.session.(currentStep := s.session.currentStep, doingAccountLinking := s.session.doingAccountLinking) == s.session
    ensures t.alias == s.alias && t.effects.configUpdates == s.effects.configUpdates
  {
    var updated := UpdateConfig(s);
    updated.(alreadyConfigured := true,
             session := updated.session.(currentStep := None, doingAccountLinking := false),
             effects := updated.effects.(outbox := updated.effects.outbox + [CancelRequest]))
  }

  /**
   * `linkAccount`: a fresh empty form, the waiting banner, and a
   * `link-account` request. There is no re-entry guard, and earlier errors
   * and field messages are kept.
   */
  function LinkAccount(s: State): (t: State)
    ensures t.effects.outbox == s.effects.outbox + [LinkAccountRequest]
    ensures t.session.doingAccountLinking && t.session.waiting && t.session.currentStep.None?
    ensures t.session.form == Some(EmptyForm) && t.session.waitingMessage == SettingUpMessage
    ensures t.session.accountLinkingError == s.session.accountLinkingError
    ensures t.session.accountLinkingErrorMessage == s.session.accountLinkingErrorMessage
    ensures t.session.fieldErrorMessage == s.session.fieldErrorMessage
    ensures t.alias == s.alias && t.store == s.store && t.alreadyConfigured == s.alreadyConfigured
    ensures t.effects.(outbox := s.effects.outbox) == s.effects
    ensures ShowLinkAccount(t) == ShowLinkAccount(s)
  {
    s.(session := s.session.(currentStep := None, form := Some(EmptyForm), waiting := true,
                             waitingMessage := SettingUpMessage, doingAccountLinking := true),
       effects := s.effects.(outbox := s.effects.outbox + [LinkAccountRequest]))
  }

  /**
   * `unlinkAccount`: drop the credentials, empty the list and save the empty
   * list. The modal closes when the flow had failed. `currentStep` is kept.
   */
  function UnlinkAccount(s: State): (t: State)
    ensures Entries(t.store) == []
    ensures t.store.nest == s.store.nest.(googleAuth := None)
    ensures t.effects.saves == s.effects.saves + [[]]
    ensures !t.alreadyConfigured && !t.session.doingAccountLinking
    ensures t.session.currentStep == s.session.currentStep
    ensures t.session.accountLinkingError == s.session.accountLinkingError
    ensures t.effects.modalCloses == s.effects.modalCloses + if s.session.accountLinkingError then 1 else 0
    ensures t.effects.outbox == s.effects.outbox
    ensures t.session.(doingAccountLinking := s.session.doingAccountLinking) == s.session
    ensures t.alias == s.alias && t.effects.configUpdates == s.effects.configUpdates
    ensures ShowLinkAccount(t) <==> !s.session.accountLinkingError
  {
    var emptied := s.(store := Store(s.store.nest.(googleAuth := None), None));
    var saved := SaveConfig(emptied);
    var reset := saved.(alreadyConfigured := false, session := saved.session.(doingAccountLinking := false));
    if s.session.accountLinkingError then
      reset.(effects := reset.effects.(modalCloses := reset.effects.modalCloses + 1))
    else
      reset
  }

  /**
   * `nextStep`: answer the pending step with the whole form value, under the
   * event name `currentStep` (undefined when no step is pending). Without a
   * form, reading its value throws after `waiting` is set.
   */
  function NextStep(s: State): (t: State)
    ensures t.session == s.session.(waiting := true)
    ensures t.effects.outbox ==
              if s.session.form.Some? then s.effects.outbox + [StepAnswer(s.session.currentStep, s.session.form.value)]
              else s.effects.outbox
    ensures t.alias == s.alias && t.store == s.store && t.alreadyConfigured == s.alreadyConfigured
    ensures t.effects.(outbox := s.effects.outbox) == s.effects
  {
    var busy := s.(session := s.session.(waiting := true));
    match s.session.form
    case None => busy
    case Some(value) => busy.(effects := busy.effects.(outbox := busy.effects.outbox + [StepAnswer(s.session.currentStep, value)]))
  }

  /** The user typing into the form controls; nothing to type into before the form exists. */
  function EnterForm(s: State, value: FormValue): (t: State)
    ensures t.session.form == if s.session.form.Some? then Some(value) else None
    ensures t.session.(form := s.session.form) == s.session && t.(session := s.session) == s
  {
    if s.session.form.Some? then s.(session := s.session.(form := Some(value))) else s
  }

  /**
   * `saveAndClose`: name the platform, store `nestConfig` at index 0 (which
   * lengthens an empty list to one element), save, close the modal and
   * announce the change.
   */
  function SaveAndClose(s: State): (t: State)
    ensures t.store == UpdateConfig(s).store
    ensures t.effects.saves == s.effects.saves + [Entries(t.store)]
    ensures t.effects.modalCloses == s.effects.modalCloses + 1
    ensures t.effects.configUpdates == s.effects.configUpdates + 1
    ensures t.effects.outbox == s.effects.outbox
    ensures t.alias == s.alias && t.session == s.session && t.alreadyConfigured == s.alreadyConfigured
  {
    var nest := s.store.nest.(platform := Some(s.alias));
    var stored := s.(store := Store(nest, Some(if s.store.tail.None? then [] else s.store.tail.value)));
    var saved := SaveConfig(stored);
    saved.(effects := saved.effects.(modalCloses := saved.effects.modalCloses + 1,
                                     configUpdates := saved.effects.configUpdates + 1))
  }

  /** The socket's dispatch of one inbound event to its handler. */
  function Receive(s: State, e: Inbound): (t: State)
    ensures t.effects.outbox == s.effects.outbox && t.effects.modalCloses == s.effects.modalCloses
    ensures t.alreadyConfigured == s.alreadyConfigured && t.alias == s.alias && t.session.form == s.session.form
    ensures |t.effects.saves| == |s.effects.saves| + if e.Credentials? && s.session.form.Some? then 1 else 0
  {
    match e
    case ServerError(message) => OnServerError(s, message)
    case BrowserClosed(message) => OnBrowserClosed(s, message)
    case Disconnect => OnDisconnect(s)
    case StepPrompt(step) => OnStepPrompt(s, step)
    case Credentials(auth) => OnCredentials(s, auth)
  }

  /** The number of `credentials` events in a stream. */
  function CredentialsCount(events: seq<Inbound>): nat {
    if events == [] then 0
    else (if events[0].Credentials? then 1 else 0) + CredentialsCount(events[1..])
  }

  /** Handling a stream of inbound events in arrival order. */
  function Replay(s: State, events: seq<Inbound>): (t: State)
    ensures t.effects.outbox == s.effects.outbox && t.effects.modalCloses == s.effects.modalCloses
    ensures t.alreadyConfigured == s.alreadyConfigured && t.alias == s.alias && t.session.form == s.session.form
    ensures |t.effects.saves| == |s.effects.saves| + if s.session.form.Some? then CredentialsCount(events) else 0
    decreases |events|
  {
    if events == [] then s else Replay(Receive(s, events[0]), events[1..])
  }

  /** A user action on the dialog: a button, or typing into the form. */
  datatype Action = LinkManually | Link | Unlink | Next | Edit(value: FormValue) | SaveClose

  /** Anything the dialog reacts to: a socket event or a user action. */
  datatype Input = Event(event: Inbound) | User(action: Action)

  /** The component's dispatch of one user action; none of them clears a linking error. */
  function Perform(s: State, a: Action): (t: State)
    ensures s.session.accountLinkingError ==> t.session.accountLinkingError
    ensures t.alias == s.alias
  {
    match a
    case LinkManually => LinkAccountManually(s)
    case Link => LinkAccount(s)
    case Unlink => UnlinkAccount(s)
    case Next => NextStep(s)
    case Edit(value) => EnterForm(s, value)
    case SaveClose => SaveAndClose(s)
  }

  /** One input of either kind. */
  function Handle(s: State, i: Input): (t: State)
    ensures s.session.accountLinkingError ==> t.session.accountLinkingError
    ensures t.alias == s.alias
  {
    match i
    case Event(e) => Receive(s, e)
    case User(a) => Perform(s, a)
  }

  /**
   * A whole dialog session: inputs in order. Once a linking error is set it
   * stays set, so automated linking is never offered again in that dialog.
   */
  function Run(s: State, inputs: seq<Input>): (t: State)
    ensures s.session.accountLinkingError ==> t.session.accountLinkingError && !ShowLinkAccount(t)
    ensures t.alias == s.alias
    decreases |inputs|
  {
    if inputs == [] then s else Run(Handle(s, inputs[0]), inputs[1..])
  }
}
