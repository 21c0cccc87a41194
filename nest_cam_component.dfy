/**
 * The dialog component itself: its fields updated in place by one method per
 * socket handler and per user action. The plugin configuration records are
 * objects, so that `nestConfig` and the first element of `pluginConfig` can be
 * the same record. Each method is proved to take the component's `View()` to
 * the state the matching `LinkFlow` function gives.
 */
module NestCamComponent {
  import opened Wrappers
  import LinkFlow

  /** A plugin configuration record, shared by reference. */
  class ConfigRecord {
    var platform: Option<string>
    var googleAuth: Option<LinkFlow.GoogleAuth>
    var settings: map<string, string>

    constructor (platform: Option<string>, googleAuth: Option<LinkFlow.GoogleAuth>, settings: map<string, string>)
      ensures Value() == LinkFlow.Config(platform, googleAuth, settings)
    {
      this.platform := platform;
      this.googleAuth := googleAuth;
      this.settings := settings;
    }

    function Value(): LinkFlow.Config
      reads this
    {
      LinkFlow.Config(platform, googleAuth, settings)
    }
  }

  /** `list` is empty or starts with `nest`, and holds it nowhere else. */
  predicate Aliased(nest: ConfigRecord, list: seq<ConfigRecord>)
  {
    list != [] ==> list[0] == nest && nest !in list[1..]
  }

  /** The store that `nest` and `list` stand for. */
  ghost function StoreOf(nest: ConfigRecord, list: seq<ConfigRecord>): LinkFlow.Store
    reads nest, list
  {
    LinkFlow.Store(nest.Value(), if list == [] then None else Some(Values(list[1..])))
  }

  /** The values of a list of records, element by element. */
  function Values(records: seq<ConfigRecord>): (configs: seq<LinkFlow.Config>)
    reads records
    ensures |configs| == |records|
    ensures forall i :: 0 <= i < |records| ==> configs[i] == records[i].Value()
  {
    if records == [] then [] else [records[0].Value()] + Values(records[1..])
  }

  class HomebridgeNestCam {
    /** `schema.pluginAlias`. */
    const alias: string
    /** The `@Input` configuration list of the plugin. */
    var pluginConfig: seq<ConfigRecord>
    /** `undefined` until `ngOnInit`. */
    var nestConfig: ConfigRecord?
    var alreadyConfigured: bool
    var doingAccountLinking: bool
    var accountLinkingError: bool
    var accountLinkingErrorMessage: string
    var fieldErrorMessage: string
    var waiting: bool
    var waitingMessage: string
    var currentStep: Option<LinkFlow.Step>
    /** The value of `linkAccountForm`; `None` until `linkAccount` builds it. */
    var linkAccountForm: Option<LinkFlow.FormValue>

    /** Stand-ins for the socket emits, the config posts, and the modal. */
    ghost var effects: LinkFlow.Effects

    /** The component between construction and `ngOnInit`. */
    ghost predicate Pristine()
      reads this
    {
      && nestConfig == null
      && !alreadyConfigured && !doingAccountLinking && !accountLinkingError && !waiting
      && accountLinkingErrorMessage == "" && fieldErrorMessage == "" && waitingMessage == ""
      && currentStep.None? && linkAccountForm.None?
      && effects == LinkFlow.NoEffects
    }

    /** After `ngOnInit`: `pluginConfig` is empty or starts with `nestConfig`, and holds it nowhere else. */
    ghost predicate Valid()
      reads this
    {
      nestConfig != null && Aliased(nestConfig, pluginConfig)
    }

    ghost function SessionView(): LinkFlow.Session
      reads this
    {
      LinkFlow.Session(currentStep, fieldErrorMessage, waiting, waitingMessage, doingAccountLinking,
                       accountLinkingError, accountLinkingErrorMessage, linkAccountForm)
    }

    ghost function StoreView(): LinkFlow.Store
      reads this, nestConfig, pluginConfig
      requires Valid()
    {
      StoreOf(nestConfig, pluginConfig)
    }

    /** The component as a `LinkFlow.State`. */
    ghost function View(): LinkFlow.State
      reads this, nestConfig, pluginConfig
      requires Valid()
    {
      LinkFlow.State(alias, alreadyConfigured, SessionView(), StoreView(), effects)
    }

    /** The component as Angular constructs it and binds its inputs. */
    constructor (pluginConfig: seq<ConfigRecord>, alias: string)
      ensures Pristine() && this.pluginConfig == pluginConfig && this.alias == alias
    {
      this.alias := alias;
      this.pluginConfig := pluginConfig;
      nestConfig := null;
      alreadyConfigured := false;
      doingAccountLinking := false;
      accountLinkingError := false;
      accountLinkingErrorMessage := "";
      fieldErrorMessage := "";
      waiting := false;
      waitingMessage := "";
      currentStep := None;
      linkAccountForm := None;
      effects := LinkFlow.NoEffects;
    }

    /** `ngOnInit`'s normalisation of the list (handler registration is the methods below). */
    method NgOnInit()
      requires Pristine()
      requires pluginConfig != [] ==> pluginConfig[0] !in pluginConfig[1..]
      modifies this
      ensures Valid()
      ensures View() == LinkFlow.Init(old(Values(pluginConfig)), alias)
      ensures old(pluginConfig) == [] ==> fresh(nestConfig) && pluginConfig == [nestConfig]
      ensures old(pluginConfig) != [] ==> pluginConfig == old(pluginConfig) && nestConfig == old(pluginConfig)[0]
    {
      if pluginConfig == [] {
        var record := new ConfigRecord(Some(alias), None, map[]);
        pluginConfig := pluginConfig + [record];
      }
      nestConfig := pluginConfig[0];
      if !ShowLinkAccount() {
        alreadyConfigured := true;
      }
    }

    /** The `showLinkAccount` getter; `nestConfig?.googleAuth?` tolerates a missing record. */
    function ShowLinkAccount(): (shown: bool)
      reads this, nestConfig
      ensures Valid() ==> shown == LinkFlow.ShowLinkAccount(View())
      ensures nestConfig == null ==> shown == (!alreadyConfigured && !accountLinkingError)
    {
      if alreadyConfigured then false
      else if nestConfig != null && LinkFlow.Complete(nestConfig.googleAuth) then false
      else !accountLinkingError
    }

    method OnServerError(message: string)
      requires Valid()
      modifies this
      ensures Valid() && View() == LinkFlow.OnServerError(old(View()), message)
      ensures nestConfig == old(nestConfig) && pluginConfig == old(pluginConfig)
    {
      accountLinkingError := true;
      accountLinkingErrorMessage := message;
    }

    method OnBrowserClosed(message: string)
      requires Valid()
      modifies this
      ensures Valid() && View() == LinkFlow.OnBrowserClosed(old(View()), message)
      ensures nestConfig == old(nestConfig) && pluginConfig == old(pluginConfig)
    {
      if doingAccountLinking {
        accountLinkingError := true;
        accountLinkingErrorMessage := message;
      }
    }

    method OnDisconnect()
      requires Valid()
      modifies this
      ensures Valid() && View() == LinkFlow.OnDisconnect(old(View()))
      ensures nestConfig == old(nestConfig) && pluginConfig == old(pluginConfig)
    {
      if doingAccountLinking {
        accountLinkingError := true;
        accountLinkingErrorMessage := LinkFlow.DisconnectedMessage;
      }
    }

    method OnUsername()
      requires Valid()
      modifies this
      ensures Valid() && nestConfig == old(nestConfig) && pluginConfig == old(pluginConfig)
      ensures SessionView() == LinkFlow.PromptSession(old(SessionView()), LinkFlow.Username)
      ensures View() == LinkFlow.OnStepPrompt(old(View()), LinkFlow.Username)
    {
      fieldErrorMessage := "";
      if linkAccountForm.Some? {  // without a form the validator update throws
        if currentStep == Some(LinkFlow.Username) {
          fieldErrorMessage := LinkFlow.RetryMessage(LinkFlow.Username);
        }
        currentStep := Some(LinkFlow.Username);
        waiting := false;
        waitingMessage := LinkFlow.LoggingInMessage;
      }
      assert StoreView() == old(StoreView());
    }

    method OnPassword()
      requires Valid()
      modifies this
      ensures Valid() && nestConfig == old(nestConfig) && pluginConfig == old(pluginConfig)
      ensures SessionView() == LinkFlow.PromptSession(old(SessionView()), LinkFlow.Password)
      ensures View() == LinkFlow.OnStepPrompt(old(View()), LinkFlow.Password)
    {
      fieldErrorMessage := "";
      if linkAccountForm.Some? {
        if currentStep == Some(LinkFlow.Password) {
          fieldErrorMessage := LinkFlow.RetryMessage(LinkFlow.Password);
        }
        currentStep := Some(LinkFlow.Password);
        waiting := false;
      }
      assert StoreView() == old(StoreView());
    }

    method OnTotp()
      requires Valid()
      modifies this
      ensures Valid() && nestConfig == old(nestConfig) && pluginConfig == old(pluginConfig)
      ensures SessionView() == LinkFlow.PromptSession(old(SessionView()), LinkFlow.Totp)
      ensures View() == LinkFlow.OnStepPrompt(old(View()), LinkFlow.Totp)
    {
      fieldErrorMessage := "";
      if linkAccountForm.Some? {
        if currentStep == Some(LinkFlow.Totp) {
          fieldErrorMessage := LinkFlow.RetryMessage(LinkFlow.Totp);
        }
        currentStep := Some(LinkFlow.Totp);
        waiting := false;
      }
      assert StoreView() == old(StoreView());
    }

    method OnCredentials(credentials: LinkFlow.GoogleAuth)
      requires Valid()
      modifies this, nestConfig
      ensures Valid() && View() == LinkFlow.OnCredentials(old(View()), credentials)
      ensures nestConfig == old(nestConfig)
      ensures pluginConfig == if linkAccountForm.Some? && old(pluginConfig) == [] then [nestConfig] else old(pluginConfig)
    {
      if linkAccountForm.None? {
        return;  // the validator update on the missing form throws
      }
      ghost var before := View();
      currentStep := None;
      waiting := false;
      nestConfig.googleAuth := Some(credentials);
      doingAccountLinking := false;
      assert View() == before.(session := before.session.(currentStep := None, waiting := false, doingAccountLinking := false),
        store := before.store.(nest := before.store.nest.(googleAuth := Some(credentials))));
      UpdateConfig();
      SaveConfig();
    }

    method LinkAccountManually()
      requires Valid()
      modifies this, nestConfig
      ensures Valid() && View() == LinkFlow.LinkAccountManually(old(View()))
      ensures nestConfig == old(nestConfig) && pluginConfig == if old(pluginConfig) == [] then [nestConfig] else old(pluginConfig)
    {
      UpdateConfig();
      currentStep := None;
      doingAccountLinking := false;
      alreadyConfigured := true;
      effects := effects.(outbox := effects.outbox + [LinkFlow.CancelRequest]);
    }

    method LinkAccount()
      requires Valid()
      modifies this
      ensures Valid() && View() == LinkFlow.LinkAccount(old(View()))
      ensures nestConfig == old(nestConfig) && pluginConfig == old(pluginConfig)
    {
      ghost var before := View();
      currentStep := None;
      linkAccountForm := Some(LinkFlow.EmptyForm);
      waiting := true;
      waitingMessage := LinkFlow.SettingUpMessage;
      effects := effects.(outbox := effects.outbox + [LinkFlow.LinkAccountRequest]);
      doingAccountLinking := true;
      assert View() == before.(session := before.session.(currentStep := None, form := Some(LinkFlow.EmptyForm),
        waiting := true, waitingMessage := LinkFlow.SettingUpMessage, doingAccountLinking := true),
        effects := before.effects.(outbox := before.effects.outbox + [LinkFlow.LinkAccountRequest]));
    }

    method UnlinkAccount()
      requires Valid()
      modifies this, nestConfig
      ensures Valid() && View() == LinkFlow.UnlinkAccount(old(View()))
      ensures nestConfig == old(nestConfig) && pluginConfig == []
    {
      ghost var before := View();
      nestConfig.googleAuth := None;
      pluginConfig := [];
      assert View() == before.(store := LinkFlow.Store(before.store.nest.(googleAuth := None), None));
      SaveConfig();
      alreadyConfigured := false;
      doingAccountLinking := false;
      if accountLinkingError {
        effects := effects.(modalCloses := effects.modalCloses + 1);
      }
    }

    method NextStep()
      requires Valid()
      modifies this
      ensures Valid() && View() == LinkFlow.NextStep(old(View()))
      ensures nestConfig == old(nestConfig) && pluginConfig == old(pluginConfig)
    {
      waiting := true;
      if linkAccountForm.None? {
        return;  // reading the missing form's value throws
      }
      effects := effects.(outbox := effects.outbox + [LinkFlow.StepAnswer(currentStep, linkAccountForm.value)]);
    }

    /** The template's binding of the form controls, as the user types. */
    method SetFormValue(value: LinkFlow.FormValue)
      requires Valid()
      modifies this
      ensures Valid() && View() == LinkFlow.EnterForm(old(View()), value)
      ensures nestConfig == old(nestConfig) && pluginConfig == old(pluginConfig)
    {
      if linkAccountForm.Some? {
        linkAccountForm := Some(value);
      }
    }

    method UpdateConfig()
      requires Valid()
      modifies this, nestConfig
      ensures Valid()
      ensures nestConfig == old(nestConfig) && pluginConfig == if old(pluginConfig) == [] then [nestConfig] else old(pluginConfig)
      ensures View() == LinkFlow.UpdateConfig(old(View()))
    {
      nestConfig.platform := Some(alias);
      if pluginConfig == [] {
        pluginConfig := pluginConfig + [nestConfig];
      }
    }

    /** `saveConfig`: posts the list; success and failure only differ in the toast shown. */
    method SaveConfig()
      requires Valid()
      modifies this`effects
      ensures Valid() && View() == LinkFlow.SaveConfig(old(View()))
      ensures nestConfig == old(nestConfig) && pluginConfig == old(pluginConfig)
    {
      effects := effects.(saves := effects.saves + [Values(pluginConfig)]);
    }

    method SaveAndClose()
      requires Valid()
      modifies this, nestConfig
      ensures Valid() && View() == LinkFlow.SaveAndClose(old(View()))
      ensures nestConfig == old(nestConfig) && pluginConfig == if old(pluginConfig) == [] then [nestConfig] else old(pluginConfig)
    {
      nestConfig.platform := Some(alias);
      if pluginConfig == [] {
        pluginConfig := [nestConfig];
      } else {
        pluginConfig := pluginConfig[0 := nestConfig];
      }
      SaveConfig();
      effects := effects.(modalCloses := effects.modalCloses + 1, configUpdates := effects.configUpdates + 1);
    }
  }
}
