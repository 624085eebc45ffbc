/**
 * The gate orchestrator: loads and saves the session through the store,
 * resolves the gate to prompt (skipping a placeholder), binds a gate's
 * template variables, decides whether a reply completes the gate, and
 * merges a reply into the session's product configuration.
 * The settings object and the gate table are parameters.
 */
module Orchestrator {
  import opened Wrappers
  import opened Text
  import opened Json
  import opened Config
  import opened GateModels
  import opened GateRegistry
  import opened SessionStates
  import opened ConversationStore
  import opened DisplayBuilder

  /** The reply keys `collect_data` never stores. */
  const ControlKeys: set<string> := {"status", "question", "questions", "warnings"}

  // ---------------------------------------------------------------- variables

  /**
   * The value bound for one source key: the settings attribute of that name
   * when there is one (as is, even a missing key's None), else `str()` of the
   * session's product-configuration entry, else "".
   */
  function Bind(settings: AppSettings, productConfig: map<string, Value>, sourceKey: string): (v: Value)
    ensures Attribute(settings, sourceKey).Some? ==> v == Attribute(settings, sourceKey).value
    ensures Attribute(settings, sourceKey).None? && sourceKey in productConfig ==>
      v == Str(Render(productConfig[sourceKey]))
    ensures Attribute(settings, sourceKey).None? && sourceKey !in productConfig ==> v == Str("")
  {
    match Attribute(settings, sourceKey)
    case Some(a) => a
    case None => if sourceKey in productConfig then Str(Render(productConfig[sourceKey])) else Str("")
  }

  /** `resolve_variables` as a value: every template variable bound, and no other key. */
  function ResolvedVariables(settings: AppSettings, template: map<string, string>,
                             productConfig: map<string, Value>): (r: map<string, Value>)
    ensures r.Keys == template.Keys
    ensures forall name :: name in template ==> r[name] == Bind(settings, productConfig, template[name])
  {
    map name | name in template :: Bind(settings, productConfig, template[name])
  }

  /** `resolve_variables(gate, session)`: one binding per template entry, visited in turn. */
  method ResolveVariables(settings: AppSettings, gate: GateConfig, session: SessionState)
    returns (varMap: map<string, Value>)
    ensures varMap == ResolvedVariables(settings, gate.variablesTemplate, session.productConfig)
  {
    var template := gate.variablesTemplate;
    var remaining := template.Keys;
    varMap := map[];
    while remaining != {}
      invariant remaining <= template.Keys
      invariant varMap.Keys == template.Keys - remaining
      invariant forall name :: name in varMap ==>
        varMap[name] == Bind(settings, session.productConfig, template[name])
      decreases remaining
    {
      var name :| name in remaining;
      var sourceKey := template[name];
      var found := Attribute(settings, sourceKey);
      if found.Some? {
        varMap := varMap[name := found.value];
      } else if sourceKey in session.productConfig {
        varMap := varMap[name := Str(Render(session.productConfig[sourceKey]))];
      } else {
        varMap := varMap[name := Str("")];
      }
      remaining := remaining - {name};
    }
  }

  /** A settings attribute shadows the session: the product configuration is not consulted. */
  lemma SettingsShadowSession(settings: AppSettings, template: map<string, string>,
                              pc1: map<string, Value>, pc2: map<string, Value>, name: string)
    requires name in template && Attribute(settings, template[name]).Some?
    ensures ResolvedVariables(settings, template, pc1)[name] == ResolvedVariables(settings, template, pc2)[name]
  {
  }

  /** Gate 1 of the shipped table binds `product_options` to the configured product list. */
  lemma Gate1Variables(settings: AppSettings, productConfig: map<string, Value>)
    ensures Lookup(Shipped(settings), 1).Some?
    ensures ResolvedVariables(settings, Lookup(Shipped(settings), 1).value.variablesTemplate, productConfig)
      == map["product_options" := Str(settings.productOptions)]
  {
    ShippedFirstGates(settings);
    var r := ResolvedVariables(settings, map["product_options" := "product_options"], productConfig);
    assert r.Keys == {"product_options"};
  }

  /** A source key naming `api_key` binds None when the key is unset, not "". */
  lemma UnsetKeyBindsNone(settings: AppSettings, productConfig: map<string, Value>)
    requires settings.apiKey.None?
    ensures Bind(settings, productConfig, "api_key") == Null
  {
  }

  // ---------------------------------------------------------------- advance decision

  /**
   * `should_advance(parsed)`: false for anything but a non-empty dict; true
   * when the lower-cased status is ok, complete or done, or a product was
   * chosen without a follow-up question. A status that is not a string has
   * no `lower()`: AttributeError.
   */
  function ShouldAdvance(parsed: Value): (r: Result<bool>)
    ensures !Truthy(parsed) || !parsed.Obj? ==> r == Ok(false)
    ensures r.Err? <==> Truthy(parsed) && parsed.Obj? && !Get(parsed.fields, "status", Str("")).Str?
    ensures r.Err? ==> r.error == AttributeError("lower")
    ensures r == Ok(true) <==>
      && Truthy(parsed) && parsed.Obj? && Get(parsed.fields, "status", Str("")).Str?
      && (|| Lower(Get(parsed.fields, "status", Str("")).s) in CompletionStatuses
          || (Truthy(Get(parsed.fields, "product_id", Null)) && !Truthy(Get(parsed.fields, "question", Null))))
  {
    if !Truthy(parsed) || !parsed.Obj? then Ok(false)
    else
      var status := Get(parsed.fields, "status", Str(""));
      if !status.Str? then Err(AttributeError("lower"))
      else if Lower(status.s) in CompletionStatuses then Ok(true)
      else if Truthy(Get(parsed.fields, "product_id", Null)) && !Truthy(Get(parsed.fields, "question", Null)) then Ok(true)
      else Ok(false)
  }

  /**
   * The orchestrator and the display agree: a reply whose status the display
   * shows as ok, complete or done advances; a reply that advances while the
   * display shows needs_info is a product choice without a question.
   */
  lemma ShouldAdvanceMatchesDisplay(parsed: Value)
    requires parsed.Obj? && Get(parsed.fields, "status", Str("")).Str?
    ensures ResolveStatus(parsed) in CompletionStatuses ==> ShouldAdvance(parsed) == Ok(true)
    ensures ShouldAdvance(parsed) == Ok(true) && ResolveStatus(parsed) == "needs_info" ==>
      Truthy(Get(parsed.fields, "product_id", Null)) && !Truthy(Get(parsed.fields, "question", Null))
  {
    var status := Get(parsed.fields, "status", Str(""));
    assert Render(status) == status.s;
  }

  // ---------------------------------------------------------------- collecting

  /** A reply entry `collect_data` stores: not a control key and not None. */
  predicate Collected(reply: map<string, Value>, key: string) {
    key in reply && key !in ControlKeys && reply[key] != Null
  }

  /** `collect_data` as a value: the configuration with the reply's collected entries written over it. */
  function Merge(productConfig: map<string, Value>, reply: map<string, Value>): (r: map<string, Value>)
    ensures forall k :: k in r <==> k in productConfig || Collected(reply, k)
    ensures forall k :: Collected(reply, k) ==> r[k] == reply[k]
    ensures forall k :: k in productConfig && !Collected(reply, k) ==> r[k] == productConfig[k]
  {
    productConfig + map k | k in reply && Collected(reply, k) :: reply[k]
  }

  /** Control keys and None values never reach the configuration; collecting twice is collecting once. */
  lemma MergeProperties(productConfig: map<string, Value>, reply: map<string, Value>)
    ensures forall k :: k in ControlKeys ==>
      (k in Merge(productConfig, reply) <==> k in productConfig) &&
      (k in productConfig ==> Merge(productConfig, reply)[k] == productConfig[k])
    ensures Merge(Merge(productConfig, reply), reply) == Merge(productConfig, reply)
  {
  }

  lemma MergeStep(productConfig: map<string, Value>, done: map<string, Value>, key: string, value: Value)
    requires key !in done
    ensures Merge(productConfig, done[key := value]) ==
      if key !in ControlKeys && value != Null then Merge(productConfig, done)[key := value]
      else Merge(productConfig, done)
  {
    var before := Merge(productConfig, done);
    var after := Merge(productConfig, done[key := value]);
    var expected := if key !in ControlKeys && value != Null then before[key := value] else before;
    forall k
      ensures k in after <==> k in expected
      ensures k in after ==> after[k] == expected[k]
    {
      assert Collected(done[key := value], k) <==> Collected(done, k) || (k == key && key !in ControlKeys && value != Null);
    }
    assert after.Keys == expected.Keys;
  }

  /** `collect_data(session, parsed)`: stores each collected reply entry; nothing else changes. */
  method CollectData(session: SessionState, parsed: map<string, Value>)
    modifies session
    ensures session.Data() == old(session.Data()).(productConfig := Merge(old(session.productConfig), parsed))
  {
    ghost var start := session.productConfig;
    ghost var done: map<string, Value> := map[];
    var remaining := parsed.Keys;
    while remaining != {}
      invariant remaining <= parsed.Keys
      invariant done.Keys == parsed.Keys - remaining
      invariant forall k :: k in done ==> done[k] == parsed[k]
      invariant session.productConfig == Merge(start, done)
      invariant session.Data() == old(session.Data()).(productConfig := session.productConfig)
      decreases remaining
    {
      var key :| key in remaining;
      var value := parsed[key];
      MergeStep(start, done, key, value);
      if key !in ControlKeys && value != Null {
        session.productConfig := session.productConfig[key := value];
      }
      done := done[key := value];
      remaining := remaining - {key};
    }
    assert done == parsed;
  }

  // ---------------------------------------------------------------- load, save, advance

  /** `load_session(id)`: the stored blob read back as a session, or the fields it cannot hold. */
  method LoadSession(store: Store, id: string) returns (r: Result<SessionState>)
    ensures r.Err? <==> FromDict(store.SessionBlob(id)).None?
    ensures r.Err? ==> r.error == MalformedState
    ensures r.Ok? ==> fresh(r.value) && r.value.Data() == FromDict(store.SessionBlob(id)).value
  {
    var decoded := FromDict(store.SessionBlob(id));
    if decoded.None? {
      return Err(MalformedState);
    }
    var session := new SessionState.FromData(decoded.value);
    return Ok(session);
  }

  /** `save_session(id, session)`: writes `to_dict()`; loading it again gives the same session. */
  method SaveSession(store: Store, id: string, session: SessionState)
    modifies store
    ensures id in store.conversations ==> store.configs == old(store.configs)[id := ToDict(session.Data())]
    ensures id !in store.conversations ==> store.configs == old(store.configs)
    ensures store.conversations == old(store.conversations) && store.messages == old(store.messages)
    ensures id in store.conversations ==> FromDict(store.SessionBlob(id)) == Some(session.Data())
  {
    store.UpdateSessionState(id, ToDict(session.Data()));
    FromDictToDict(session.Data());
  }

  /** The session after `collect_data` runs on a reply that is a non-empty dict. */
  function CollectedData(d: SessionData, parsed: Value): SessionData {
    if Truthy(parsed) && parsed.Obj? then d.(productConfig := Merge(d.productConfig, parsed.fields)) else d
  }

  /**
   * `advance_gate(id, session, parsed)`: collects a non-empty dict reply,
   * advances once, and saves the session whether or not it moved.
   */
  method AdvanceGate(store: Store, reg: Registry, id: string, session: SessionState, parsed: Value)
    returns (nxt: Option<int>)
    modifies store, session
    ensures nxt == NextGateOf(reg, old(session.gateSequence), old(session.currentGate))
    ensures session.Data() ==
      var collected := CollectedData(old(session.Data()), parsed);
      if nxt.Some? then collected.(currentGate := nxt.value) else collected
    ensures id in store.conversations ==> store.configs == old(store.configs)[id := ToDict(session.Data())]
    ensures id !in store.conversations ==> store.configs == old(store.configs)
    ensures store.conversations == old(store.conversations) && store.messages == old(store.messages)
  {
    if Truthy(parsed) && parsed.Obj? {
      CollectData(session, parsed.fields);
    }
    nxt := session.Advance(reg);
    SaveSession(store, id, session);
  }

  /**
   * `resolve_gate(id)`: loads the session and looks up its gate. On a
   * placeholder it advances once; when that moves the cursor it prompts the
   * new gate and saves, otherwise it keeps the placeholder and saves nothing.
   * A cursor that is not a table key raises KeyError.
   */
  method ResolveGate(store: Store, reg: Registry, id: string) returns (r: Result<(GateConfig, SessionState)>)
    modifies store
    ensures FromDict(old(store.SessionBlob(id))).None? ==> r == Err(MalformedState) && store.configs == old(store.configs)
    ensures FromDict(old(store.SessionBlob(id))).Some? ==>
      var d := FromDict(old(store.SessionBlob(id))).value;
      && (Lookup(reg, d.currentGate).None? ==> r == Err(KeyError(d.currentGate)) && store.configs == old(store.configs))
      && (Lookup(reg, d.currentGate).Some? ==> r.Ok? && fresh(r.value.1))
      && (IsActiveGate(reg, d.currentGate) ==>
            r.Ok? && r.value.0 == Lookup(reg, d.currentGate).value &&
            r.value.1.Data() == d && store.configs == old(store.configs))
      && (Lookup(reg, d.currentGate).Some? && !IsActiveGate(reg, d.currentGate) ==>
            var nxt := NextGateOf(reg, d.gateSequence, d.currentGate);
            && (nxt.None? ==>
                  r.Ok? && r.value.0 == Lookup(reg, d.currentGate).value &&
                  r.value.1.Data() == d && store.configs == old(store.configs))
            && (nxt.Some? ==>
                  && r.Ok? && Lookup(reg, nxt.value).Some?
                  && r.value.0 == Lookup(reg, nxt.value).value && r.value.0.status == Active
                  && r.value.1.Data() == d.(currentGate := nxt.value)
                  && (id in store.conversations ==> store.configs == old(store.configs)[id := ToDict(r.value.1.Data())])
                  && (id !in store.conversations ==> store.configs == old(store.configs))))
    ensures store.conversations == old(store.conversations) && store.messages == old(store.messages)
  {
    var loaded := LoadSession(store, id);
    if loaded.Err? {
      return Err(loaded.error);
    }
    var session := loaded.value;
    var gate := GetGate(reg, session.currentGate);
    if gate.Err? {
      return Err(gate.error);
    }
    var g := gate.value;
    if g.status == Placeholder {
      ghost var before := session.Data();
      var nxt := session.Advance(reg);
      if nxt.Some? {
        NextGateIsRegisteredAndActive(reg, before.gateSequence, before.currentGate);
        var moved := GetGate(reg, nxt.value);
        g := moved.value;
        SaveSession(store, id, session);
      }
    }
    return Ok((g, session));
  }
}
