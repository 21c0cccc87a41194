/**
 * Properties of the linking flow that span several events or actions:
 * whole event streams, end-to-end runs, and the state `linkAccount` carries
 * over from an earlier flow.
 */
module LinkFlowProperties {
  import opened Wrappers
  import opened LinkFlow

  /** Handling two event streams one after the other is handling their concatenation. */
  lemma {:induction false} ReplayAppend(s: State, first: seq<Inbound>, second: seq<Inbound>)
    ensures Replay(s, first + second) == Replay(Replay(s, first), second)
    decreases |first|
  {
    if first == [] {
      assert first + second == second;
    } else {
      assert (first + second)[0] == first[0];
      assert (first + second)[1..] == first[1..] + second;
      ReplayAppend(Receive(s, first[0]), first[1..], second);
    }
  }

  /** Connection losses and closed browsers while no flow is in flight leave the dialog as it was. */
  lemma {:induction false} IdleChannelLossIgnored(s: State, events: seq<Inbound>)
    requires !s.session.doingAccountLinking
    requires forall i :: 0 <= i < |events| ==> events[i].Disconnect? || events[i].BrowserClosed?
    ensures Replay(s, events) == s
    decreases |events|
  {
    if events != [] {
      assert Receive(s, events[0]) == s;
      IdleChannelLossIgnored(s, events[1..]);
    }
  }

  /**
   * Until `credentials` arrives, no inbound event touches the configuration
   * list, `nestConfig` or the save log.
   */
  lemma {:induction false} StoreUntouchedWithoutCredentials(s: State, events: seq<Inbound>)
    requires forall i :: 0 <= i < |events| ==> !events[i].Credentials?
    ensures Replay(s, events).store == s.store
    ensures Replay(s, events).effects == s.effects
    decreases |events|
  {
    if events != [] {
      var next := Receive(s, events[0]);
      assert next.store == s.store && next.effects == s.effects;
      StoreUntouchedWithoutCredentials(next, events[1..]);
    }
  }

  /**
   * Whatever the agent sent before, a `credentials` event that ends a flow
   * whose form exists stores the bundle exactly as received, names the
   * platform, makes `nestConfig` the list's first record, saves that list
   * once, and closes the flow; a complete bundle hides the linking card.
   */
  lemma CompletedFlowStoresCredentials(s: State, events: seq<Inbound>, auth: GoogleAuth)
    requires s.session.form.Some?
    ensures var before := Replay(s, events);
            var t := Replay(s, events + [Credentials(auth)]);
            && t.store.nest.googleAuth == Some(auth)
            && t.store.nest.platform == Some(s.alias)
            && Entries(t.store) != [] && Entries(t.store)[0] == t.store.nest
            && t.effects.saves == before.effects.saves + [Entries(t.store)]
            && t.effects.outbox == s.effects.outbox
            && t.session.currentStep.None? && !t.session.waiting && !t.session.doingAccountLinking
            && (Complete(Some(auth)) ==> !ShowLinkAccount(t))
  {
    ReplayAppend(s, events, [Credentials(auth)]);
    var before := Replay(s, events);
    assert Replay(before, [Credentials(auth)]) == Replay(OnCredentials(before, auth), []);
  }

  /**
   * The agent asking twice in a row for the same step: the first prompt
   * clears the field message unless that step was already pending, the
   * second shows the step's retry message, and the step stays put.
   */
  lemma RepeatedStepRejects(s: State, step: Step)
    requires s.session.form.Some?
    ensures var once := OnStepPrompt(s, step);
            var twice := OnStepPrompt(once, step);
            && (s.session.currentStep != Some(step) ==> once.session.fieldErrorMessage == "")
            && twice.session.fieldErrorMessage == RetryMessage(step)
            && once.session.currentStep == Some(step) && twice.session.currentStep == Some(step)
  {
  }

  /** A record that already holds a complete bundle is not offered for linking, and nothing is sent. */
  lemma ConfiguredRecordNotOffered(record: Config, rest: seq<Config>, alias: string)
    requires Complete(record.googleAuth)
    ensures var s := Init([record] + rest, alias);
            && s.alreadyConfigured && !ShowLinkAccount(s)
            && s.store.nest == record && Entries(s.store) == [record] + rest
            && s.effects.outbox == []
  {
  }

  /**
   * `unlinkAccount` followed by `linkAccount`: the credentials and the list
   * are gone, but the field message and the linking error of the previous
   * flow are carried into the new one. The field message lasts only until
   * the new flow's first prompt clears it. A carried-over linking error
   * matters only in a dialog the unlink has already closed.
   */
  lemma UnlinkThenRelinkKeepsMessages(s: State, step: Step)
    ensures var t := LinkAccount(UnlinkAccount(s));
            && t.store.nest.googleAuth.None? && Entries(t.store) == []
            && t.session.fieldErrorMessage == s.session.fieldErrorMessage
            && t.session.accountLinkingError == s.session.accountLinkingError
            && t.session.accountLinkingErrorMessage == s.session.accountLinkingErrorMessage
            && t.session.doingAccountLinking && t.session.form == Some(EmptyForm)
            && OnStepPrompt(t, step).session.fieldErrorMessage == ""
    ensures s.session.accountLinkingError ==> UnlinkAccount(s).effects.modalCloses == s.effects.modalCloses + 1
  {
  }

  /**
   * A rejected username, then unlink and a fresh `linkAccount`: the new flow
   * starts with `fieldErrorMessage` still holding the old rejection, until
   * its first prompt clears it.
   */
  lemma RelinkShowsStaleRejection(alias: string, step: Step)
    ensures var linked := LinkAccount(Init([], alias));
            var rejected := Receive(Receive(linked, StepPrompt(Username)), StepPrompt(Username));
            var relinked := LinkAccount(UnlinkAccount(rejected));
            && relinked.session.fieldErrorMessage == "Couldn't find your Google Account"
            && Receive(relinked, StepPrompt(step)).session.fieldErrorMessage == ""
  {
    var linked := LinkAccount(Init([], alias));
    RepeatedStepRejects(linked, Username);
    UnlinkThenRelinkKeepsMessages(Receive(Receive(linked, StepPrompt(Username)), StepPrompt(Username)), step);
  }

  /** `updateConfig` twice is `updateConfig` once. */
  lemma UpdateConfigIdempotent(s: State)
    ensures UpdateConfig(UpdateConfig(s)) == UpdateConfig(s)
  {
  }

  /**
   * The end-to-end run from an empty list: link, answer the username and
   * password prompts, receive the credentials. Exactly the three requests
   * go out, the list is saved once as the single record naming the platform
   * and holding the bundle, and linking is no longer offered.
   */
  lemma ScenarioEmptyListToLinked(alias: string, email: string, password: string)
    ensures var auth := GoogleAuth(Some("T"), Some("C"), map[]);
            var t := Run(Init([], alias), [
                       User(Link), Event(StepPrompt(Username)), User(Edit(FormValue(email, "", ""))), User(Next),
                       Event(StepPrompt(Password)), User(Edit(FormValue(email, password, ""))), User(Next),
                       Event(Credentials(auth))]);
            && t.effects.outbox == [LinkAccountRequest, StepAnswer(Some(Username), FormValue(email, "", "")),
                                    StepAnswer(Some(Password), FormValue(email, password, ""))]
            && t.effects.saves == [[Config(Some(alias), Some(auth), map[])]]
            && !ShowLinkAccount(t)
  {
    var auth := GoogleAuth(Some("T"), Some("C"), map[]);
    var first := FormValue(email, "", "");
    var second := FormValue(email, password, "");
    var opening := [User(Link), Event(StepPrompt(Username)), User(Edit(first))];
    var closing := [User(Next), Event(StepPrompt(Password)), User(Edit(second)), User(Next), Event(Credentials(auth))];
    RunLinkAndType(alias, first);
    RunAnswerAndFinish(Run(Init([], alias), opening), second, auth);
    RunSplit(Init([], alias), opening, closing);
    assert opening + closing == [User(Link), Event(StepPrompt(Username)), User(Edit(first)), User(Next),
                                 Event(StepPrompt(Password)), User(Edit(second)), User(Next), Event(Credentials(auth))];
  }

  /** Running two input lists one after the other is running their concatenation. */
  lemma {:induction false} RunSplit(s: State, first: seq<Input>, second: seq<Input>)
    ensures Run(s, first + second) == Run(Run(s, first), second)
    decreases |first|
  {
    if first == [] {
      assert first + second == second;
    } else {
      assert (first + second)[0] == first[0];
      assert (first + second)[1..] == first[1..] + second;
      RunSplit(Handle(s, first[0]), first[1..], second);
    }
  }

  /** First half of the end-to-end run: the form is built, the username asked for and typed. */
  lemma RunLinkAndType(alias: string, first: FormValue)
    ensures var t := Run(Init([], alias), [User(Link), Event(StepPrompt(Username)), User(Edit(first))]);
            && t.session.currentStep == Some(Username) && t.session.form == Some(first)
            && t.effects == Effects([LinkAccountRequest], [], 0, 0)
            && t.store == Store(Config(Some(alias), None, map[]), Some([])) && !t.alreadyConfigured
            && !t.session.accountLinkingError && t.alias == alias
  {
    var inputs := [User(Link), Event(StepPrompt(Username)), User(Edit(first))];
    var s0 := Init([], alias);
    var s1 := LinkAccount(s0);
    var s2 := OnStepPrompt(s1, Username);
    var s3 := EnterForm(s2, first);
    assert Run(s3, []) == s3;
    assert inputs[2..] == [User(Edit(first))];
    assert Run(s2, inputs[2..]) == s3;
    assert inputs[1..] == [Event(StepPrompt(Username)), User(Edit(first))];
    assert Run(s1, inputs[1..]) == s3;
  }

  /** Second half: username sent, password asked for, typed and sent, credentials received. */
  lemma RunAnswerAndFinish(s: State, second: FormValue, auth: GoogleAuth)
    requires s.session.currentStep == Some(Username) && s.session.form.Some?
    requires s.store.tail == Some([]) && s.store.nest.platform == Some(s.alias)
    requires s.effects.saves == [] && !s.alreadyConfigured
    requires Complete(Some(auth))
    ensures var t := Run(s, [User(Next), Event(StepPrompt(Password)), User(Edit(second)), User(Next), Event(Credentials(auth))]);
            && t.effects.outbox == s.effects.outbox + [StepAnswer(Some(Username), s.session.form.value),
                                                      StepAnswer(Some(Password), second)]
            && t.effects.saves == [[s.store.nest.(googleAuth := Some(auth))]]
            && !ShowLinkAccount(t)
  {
    var inputs := [User(Next), Event(StepPrompt(Password)), User(Edit(second)), User(Next), Event(Credentials(auth))];
    var s1 := NextStep(s);
    var s2 := OnStepPrompt(s1, Password);
    var s3 := EnterForm(s2, second);
    var s4 := NextStep(s3);
    var s5 := OnCredentials(s4, auth);
    assert s4.effects.outbox == s.effects.outbox + [StepAnswer(Some(Username), s.session.form.value),
                                                   StepAnswer(Some(Password), second)];
    assert Entries(s5.store) == [s.store.nest.(googleAuth := Some(auth))];
    assert Run(s5, []) == s5;
    assert inputs[4..] == [Event(Credentials(auth))];
    assert Run(s4, inputs[4..]) == s5;
    assert inputs[3..] == [User(Next), Event(Credentials(auth))];
    assert Run(s3, inputs[3..]) == s5;
    assert inputs[2..] == [User(Edit(second)), User(Next), Event(Credentials(auth))];
    assert Run(s2, inputs[2..]) == s5;
    assert inputs[1..] == [Event(StepPrompt(Password)), User(Edit(second)), User(Next), Event(Credentials(auth))];
    assert Run(s1, inputs[1..]) == s5;
  }
}
