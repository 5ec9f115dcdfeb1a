/** `ConsoleKit::TenantConfigurator`: looks up the selected tenant's constants, checks that
    the shard and partner code are present, points the context object at the tenant, binds
    the SQL and Mongo clients when those libraries are loaded, and records in
    `@configuration_success` whether all of that went through. Every failure after the lookup
    is reported with the error's backtrace and never re-raised. */
module TenantConfigurator {
  import opened Ruby
  import opened Tenants
  import opened Context
  import opened Output
  import Config

  /** What a foreign call does when it is made: return, or raise the given exception. */
  datatype HookOutcome = Returns | Raises(error: RubyError)

  /** A foreign library constant (`ApplicationRecord`, `Mongoid`): not loaded, or loaded with
      the given behaviour of the one method the helper calls on it. */
  datatype Hook = Undefined | Defined(outcome: HookOutcome)

  /** `ApplicationRecord.establish_connection` and `Mongoid.override_client`. */
  datatype Hooks = Hooks(sql: Hook, mongo: Hook)

  /** A foreign call made, with its argument (the shard symbol's name, the database name). */
  datatype Call = EstablishConnection(shard: string) | OverrideClient(db: string)

  /** What `configure_tenant` returns: `true` on success, `nil` (what `print_error` returns)
      for a missing configuration, and on failure whatever `print_backtrace` returns, which is
      the backtrace array `each` walked. */
  datatype ReturnValue = TrueValue | NilValue | LinesValue(lines: seq<string>)

  const MONGO_WARNING: string := "Mongoid.override_client is not defined."
  const CLEARED_MESSAGE: string := "Tenant context has been cleared."

  /** The exceptions Ruby itself raises on the way; `trace` is the backtrace it attaches.
      `nil[...]`: indexing a nil tenant map or nil constants. */
  function NilIndexError(trace: seq<string>): RubyError {
    RubyError(NoMethodError, "undefined method '[]' for nil", trace)
  }

  function NilContextError(trace: seq<string>): RubyError {
    RubyError(NoMethodError, "undefined method 'tenant_shard=' for nil", trace)
  }

  function NilShardError(trace: seq<string>): RubyError {
    RubyError(NoMethodError, "undefined method 'to_sym' for nil", trace)
  }

  // ---------------------------------------------------------------------------
  // validate_constants!

  /** `%i[shard partner_code] - constants.keys`: the required keys that are absent, in the
      order they are listed. A key present with a nil value is not missing. */
  function MissingKeys(c: Constants): (missing: seq<string>)
    ensures forall k :: k in missing <==> (k == SHARD || k == PARTNER_CODE) && k !in c
    ensures missing == [] <==> SHARD in c && PARTNER_CODE in c
    ensures |missing| == 2 ==> missing == [SHARD, PARTNER_CODE]
  {
    (if SHARD in c then [] else [SHARD]) + (if PARTNER_CODE in c then [] else [PARTNER_CODE])
  }

  /** `validate_constants!`: the RuntimeError it raises, if any. */
  function ValidateConstants(c: Constants, trace: seq<string>): (raised: Option<RubyError>)
    ensures raised.None? <==> SHARD in c && PARTNER_CODE in c
    ensures raised.Some? ==> raised.value.cls == RuntimeError && raised.value.backtrace == trace
  {
    var missing := MissingKeys(c);
    if missing == [] then None
    else Some(RubyError(RuntimeError, "Tenant constants missing keys: " + Join(missing, ", "), trace))
  }

  // ---------------------------------------------------------------------------
  // apply_context and setup_connections

  /** The three attribute values `apply_context` writes: `constant[:shard]`,
      `constant[:mongo_db]` and `constant[:partner_code]`, nil where absent. */
  function Applied(c: Constants): Values {
    Values(Get(c, SHARD), Get(c, MONGO_DB), Get(c, PARTNER_CODE))
  }

  /** What the binding steps print and call, and the exception that escapes them, if any. */
  datatype Bound = Bound(events: seq<Event>, calls: seq<Call>, raised: Option<RubyError>)

  /** `establish_sql_connection`, with `tenant_shard` as the context now holds it. */
  function EstablishSql(sql: Hook, shard: Val, trace: seq<string>): (b: Bound)
    ensures b.events == [] && |b.calls| <= 1
    ensures sql.Undefined? ==> b.calls == [] && b.raised.None?
  {
    match sql
    case Undefined => Bound([], [], None)
    case Defined(outcome) =>
      match shard
      case Nil => Bound([], [], Some(NilShardError(trace)))
      case Str(s) =>
        Bound([], [EstablishConnection(s)], if outcome.Raises? then Some(outcome.error) else None)
  }

  /** `establish_mongo_connection`, with `tenant_mongo_db` as the context now holds it: a
      NoMethodError from the call is rescued into a warning. */
  function EstablishMongo(mongo: Hook, mongoDb: Val): (b: Bound)
    ensures |b.calls| <= 1
    ensures b.raised.Some? ==> b.raised.value.cls != NoMethodError
    ensures b.events != [] ==> b.events == [Print(Warning, MONGO_WARNING)] && b.raised.None?
  {
    match mongo
    case Undefined => Bound([], [], None)
    case Defined(outcome) =>
      var db := ToS(mongoDb);
      if db == [] then Bound([], [], None)
      else
        match outcome
        case Returns => Bound([], [OverrideClient(db)], None)
        case Raises(e) =>
          if e.cls == NoMethodError then Bound([Print(Warning, MONGO_WARNING)], [OverrideClient(db)], None)
          else Bound([], [OverrideClient(db)], Some(e))
  }

  /** `setup_connections`: SQL first; Mongo only if SQL did not raise. */
  function SetupConnections(hooks: Hooks, ctx: Values, trace: seq<string>): (b: Bound)
    ensures b.events == [] || b.events == [Print(Warning, MONGO_WARNING)]
    ensures b.raised.Some? && b.raised.value.cls == NoMethodError ==> hooks.sql.Defined?
  {
    var sql := EstablishSql(hooks.sql, ctx.shard, trace);
    if sql.raised.Some? then sql
    else
      var mongo := EstablishMongo(hooks.mongo, ctx.mongoDb);
      Bound(sql.events + mongo.events, sql.calls + mongo.calls, mongo.raised)
  }

  // ---------------------------------------------------------------------------
  // configure_tenant as a whole

  /** One `configure_tenant(key)` call: the flag it leaves, the context attributes afterwards
      (None when `context_class` is nil), what it printed, the foreign calls it made and what
      it returned. */
  datatype Outcome = Outcome(success: bool, context: Option<Values>, events: seq<Event>,
                             calls: seq<Call>, returned: ReturnValue)

  function FailureMessage(key: Key, e: RubyError): string {
    "Failed to configure tenant '" + key + "': " + e.message
  }

  /** `handle_error`: the flag is cleared, the message and the backtrace are printed, after
      whatever the failed steps had already printed and called. */
  function Failed(key: Key, ctx: Option<Values>, events: seq<Event>, calls: seq<Call>, e: RubyError): Outcome {
    Outcome(false, ctx, events + [Print(Error, FailureMessage(key, e))] + PrintBacktrace(Some(e.backtrace)),
            calls, LinesValue(e.backtrace))
  }

  /** `configure_tenant(key)` with the configured `tenants` and the current attributes of
      `context_class` (None when it is nil). */
  function ConfigureOutcome(tenants: Option<Registry>, ctx: Option<Values>, key: Key, hooks: Hooks,
                            trace: seq<string>): (o: Outcome)
    ensures o.success <==> o.returned == TrueValue
    ensures o.returned == NilValue <==> tenants.Some? && ConstantsOf(tenants.value, key).None?
    ensures ctx.None? ==> o.context.None? && o.calls == []
  {
    match tenants
    case None => Failed(key, ctx, [], [], NilIndexError(trace))
    case Some(r) =>
      match ConstantsOf(r, key)
      case None => Outcome(false, ctx, [Print(Error, "No configuration found for tenant: " + key)], [], NilValue)
      case Some(c) => PerformConfiguration(ctx, key, c, hooks, trace)
  }

  /** `perform_configuration`: validate, write the context, bind, report success. */
  function PerformConfiguration(ctx: Option<Values>, key: Key, c: Constants, hooks: Hooks,
                                trace: seq<string>): (o: Outcome)
    ensures o.success <==> o.returned == TrueValue
    ensures !o.returned.NilValue?
    ensures ctx.None? ==> o.context.None? && o.calls == []
  {
    match ValidateConstants(c, trace)
    case Some(e) => Failed(key, ctx, [], [], e)
    case None =>
      if ctx.None? then Failed(key, ctx, [], [], NilContextError(trace))
      else
        var written := Applied(c);
        var b := SetupConnections(hooks, written, trace);
        if b.raised.Some? then Failed(key, Some(written), b.events, b.calls, b.raised.value)
        else Outcome(true, Some(written), b.events + [Print(Success, "Tenant set to: " + key)], b.calls, TrueValue)
  }

  // ---------------------------------------------------------------------------
  // The module's state: `@configuration_success`, and the context object it writes

  class Configurator {
    /** `@configuration_success`. Ruby starts it as nil, which reads as false. */
    var configurationSuccess: bool

    constructor ()
      ensures !configurationSuccess
    {
      configurationSuccess := false;
    }

    /** `configuration_success`. */
    function ConfigurationSuccess(): bool
      reads this
    {
      configurationSuccess
    }

    /** `configure_tenant(key)`, reading `tenants` and `context_class` from `config`; the
        context object is written in place, the flag records the outcome. */
    method ConfigureTenant(config: Config.Configuration, key: Key, hooks: Hooks, trace: seq<string>)
      returns (returned: ReturnValue, events: seq<Event>, calls: seq<Call>)
      modifies this, config.contextClass
      ensures var o := ConfigureOutcome(config.tenants, if config.contextClass == null then None
                                        else Some(old(config.contextClass.Snapshot())), key, hooks, trace);
        && configurationSuccess == o.success
        && returned == o.returned && events == o.events && calls == o.calls
        && (config.contextClass != null ==> Some(config.contextClass.Snapshot()) == o.context)
    {
      var ctx := config.contextClass;
      match config.tenants {
        case None =>
          returned, events := HandleError(key, NilIndexError(trace), []);
          calls := [];
        case Some(r) =>
          var constants := ConstantsOf(r, key);
          if constants.None? {
            returned, events := MissingConfigError(key);
            calls := [];
          } else {
            returned, events, calls := Perform(ctx, key, constants.value, hooks, trace);
          }
      }
    }

    /** `perform_configuration` with its `rescue`, writing the context in place. */
    method Perform(ctx: TenantContext?, key: Key, c: Constants, hooks: Hooks, trace: seq<string>)
      returns (returned: ReturnValue, events: seq<Event>, calls: seq<Call>)
      modifies this, ctx
      ensures var o := PerformConfiguration(if ctx == null then None else Some(old(ctx.Snapshot())),
                                            key, c, hooks, trace);
        && configurationSuccess == o.success
        && returned == o.returned && events == o.events && calls == o.calls
        && (ctx != null ==> Some(ctx.Snapshot()) == o.context)
    {
      var invalid := ValidateConstants(c, trace);
      if invalid.Some? {
        returned, events := HandleError(key, invalid.value, []);
        calls := [];
        return;
      }
      if ctx == null {
        returned, events := HandleError(key, NilContextError(trace), []);
        calls := [];
        return;
      }
      ctx.Assign(TenantShard, Get(c, SHARD));
      ctx.Assign(TenantMongoDb, Get(c, MONGO_DB));
      ctx.Assign(PartnerIdentifier, Get(c, PARTNER_CODE));
      assert ctx.Snapshot() == Applied(c);
      var b := SetupConnections(hooks, ctx.Snapshot(), trace);
      calls := b.calls;
      if b.raised.Some? {
        returned, events := HandleError(key, b.raised.value, b.events);
      } else {
        events := b.events + [Print(Success, "Tenant set to: " + key)];
        configurationSuccess := true;
        returned := TrueValue;
      }
    }

    /** `missing_config_error`. */
    method MissingConfigError(key: Key) returns (returned: ReturnValue, events: seq<Event>)
      modifies this
      ensures !configurationSuccess
      ensures events == [Print(Error, "No configuration found for tenant: " + key)] && returned == NilValue
    {
      configurationSuccess := false;
      events := [Print(Error, "No configuration found for tenant: " + key)];
      returned := NilValue;
    }

    /** `handle_error`, after the events `before` that the failed steps had printed. */
    method HandleError(key: Key, e: RubyError, before: seq<Event>) returns (returned: ReturnValue, events: seq<Event>)
      modifies this
      ensures !configurationSuccess
      ensures events == before + [Print(Error, FailureMessage(key, e))] + PrintBacktrace(Some(e.backtrace))
      ensures returned == LinesValue(e.backtrace)
    {
      configurationSuccess := false;
      events := before + [Print(Error, FailureMessage(key, e))] + PrintBacktrace(Some(e.backtrace));
      returned := LinesValue(e.backtrace);
    }

    /** `clear`: the flag is cleared, then each of the three attributes is set to nil in turn;
        a nil `context_class` raises NoMethodError out of `clear` after the flag is cleared. */
    method Clear(config: Config.Configuration, trace: seq<string>)
      returns (raised: Option<RubyError>, events: seq<Event>)
      modifies this, config.contextClass
      ensures !configurationSuccess
      ensures config.contextClass == null ==> raised == Some(NilContextError(trace)) && events == []
      ensures config.contextClass != null ==>
        && raised == None
        && config.contextClass.Snapshot() == CLEARED
        && events == [Print(Info, CLEARED_MESSAGE)]
    {
      configurationSuccess := false;
      var ctx := config.contextClass;
      if ctx == null {
        raised, events := Some(NilContextError(trace)), [];
        return;
      }
      for i := 0 to |ATTRS|
        invariant !configurationSuccess
        invariant forall j :: 0 <= j < i ==> ctx.Read(ATTRS[j]) == Nil
      {
        ctx.Assign(ATTRS[i], Nil);
      }
      assert ATTRS[0] == TenantShard && ATTRS[1] == TenantMongoDb && ATTRS[2] == PartnerIdentifier;
      raised, events := None, [Print(Info, CLEARED_MESSAGE)];
    }
  }

  /** Clearing twice leaves the same state as clearing once, and does not fail either time
      when there is a context object. */
  method ClearIsIdempotent(m: Configurator, config: Config.Configuration, trace: seq<string>)
    returns (first: Values, second: Values)
    requires config.contextClass != null
    modifies m, config.contextClass
    ensures first == second == CLEARED && !m.configurationSuccess
  {
    var raised, events := m.Clear(config, trace);
    first := config.contextClass.Snapshot();
    raised, events := m.Clear(config, trace);
    second := config.contextClass.Snapshot();
  }

  // ---------------------------------------------------------------------------
  // Properties of configure_tenant

  /** A key with no configuration, or a configuration without constants, is reported as
      such: the flag is false, the context is untouched, nothing is bound and nil is returned. */
  lemma MissingConfiguration(r: Registry, ctx: Option<Values>, key: Key, hooks: Hooks, trace: seq<string>)
    requires Lookup(r, key).None? || Lookup(r, key).value.constants.None?
    ensures var o := ConfigureOutcome(Some(r), ctx, key, hooks, trace);
      && !o.success && o.context == ctx && o.calls == [] && o.returned == NilValue
      && o.events == [Print(Error, "No configuration found for tenant: " + key)]
  {
  }

  /** Constants lacking `:shard` or `:partner_code` fail before anything is written or bound:
      the context is untouched and the failure is reported with the validation message. */
  lemma {:induction false} ValidationPrecedesWrites(c: Constants, ctx: Option<Values>, key: Key, hooks: Hooks,
                                                    trace: seq<string>)
    requires SHARD !in c || PARTNER_CODE !in c
    ensures var o := PerformConfiguration(ctx, key, c, hooks, trace);
      && !o.success && o.context == ctx && o.calls == []
      && o.events[0] == Print(Error, FailureMessage(key, ValidateConstants(c, trace).value))
      && o.returned == LinesValue(trace)
  {
    var e := ValidateConstants(c, trace).value;
    assert PerformConfiguration(ctx, key, c, hooks, trace) == Failed(key, ctx, [], [], e);
  }

  /** The validation message lists the missing keys, comma separated. */
  lemma ValidationMessage(c: Constants, trace: seq<string>)
    requires SHARD !in c || PARTNER_CODE !in c
    ensures ValidateConstants(c, trace).value.message == "Tenant constants missing keys: " + Join(MissingKeys(c), ", ")
  {
  }

  /** A tenant without a partner code reports exactly that key as missing. */
  lemma MissingPartnerCodeMessage(c: Constants)
    requires SHARD in c && PARTNER_CODE !in c
    ensures MissingKeys(c) == [PARTNER_CODE]
    ensures ValidateConstants(c, []).value.message == "Tenant constants missing keys: partner_code"
  {
  }

  /** Success exactly when the constants are valid, there is a context object and neither
      binding raised an exception that escapes it. */
  lemma SuccessIff(c: Constants, ctx: Option<Values>, key: Key, hooks: Hooks, trace: seq<string>)
    ensures PerformConfiguration(ctx, key, c, hooks, trace).success
        <==> SHARD in c && PARTNER_CODE in c && ctx.Some?
             && SetupConnections(hooks, Applied(c), trace).raised.None?
  {
  }

  /** On success the context holds the tenant's shard, Mongo database (nil when absent) and
      partner code, "Tenant set to: key" is the last line printed, and true is returned. */
  lemma {:induction false} SuccessWritesContext(tenants: Option<Registry>, ctx: Option<Values>, key: Key,
                                                hooks: Hooks, trace: seq<string>)
    requires ConfigureOutcome(tenants, ctx, key, hooks, trace).success
    ensures tenants.Some? && ConstantsOf(tenants.value, key).Some?
    ensures var c := ConstantsOf(tenants.value, key).value;
      var o := ConfigureOutcome(tenants, ctx, key, hooks, trace);
      && o.context == Some(Values(Get(c, SHARD), Get(c, MONGO_DB), Get(c, PARTNER_CODE)))
      && o.returned == TrueValue
      && o.events != [] && o.events[|o.events| - 1] == Print(Success, "Tenant set to: " + key)
  {
    match tenants
    case None =>
      assert false;
    case Some(r) =>
      match ConstantsOf(r, key)
      case None =>
        assert false;
      case Some(c) =>
        assert ValidateConstants(c, trace).None?;
  }

  /** Every failure after the lookup clears the flag, prints "Failed to configure tenant" with
      the error's message and then its backtrace, and returns the backtrace. */
  lemma {:induction false} FailureReported(c: Constants, ctx: Option<Values>, key: Key, hooks: Hooks,
                                           trace: seq<string>)
    requires !PerformConfiguration(ctx, key, c, hooks, trace).success
    ensures exists e: RubyError, before: seq<Event> ::
      var o := PerformConfiguration(ctx, key, c, hooks, trace);
      && o.events == before + [Print(Error, FailureMessage(key, e))] + PrintBacktrace(Some(e.backtrace))
      && o.returned == LinesValue(e.backtrace)
  {
    var o := PerformConfiguration(ctx, key, c, hooks, trace);
    var invalid := ValidateConstants(c, trace);
    if invalid.Some? {
      assert o.events == [] + [Print(Error, FailureMessage(key, invalid.value))] + PrintBacktrace(Some(trace));
    } else if ctx.None? {
      var e := NilContextError(trace);
      assert o.events == [] + [Print(Error, FailureMessage(key, e))] + PrintBacktrace(Some(e.backtrace));
    } else {
      var b := SetupConnections(hooks, Applied(c), trace);
      var e := b.raised.value;
      assert o.events == b.events + [Print(Error, FailureMessage(key, e))] + PrintBacktrace(Some(e.backtrace));
    }
  }

  /** A binding failure leaves the context as `apply_context` wrote it: there is no rollback. */
  lemma NoRollback(c: Constants, ctx: Values, key: Key, hooks: Hooks, trace: seq<string>)
    requires SHARD in c && PARTNER_CODE in c
    requires SetupConnections(hooks, Applied(c), trace).raised.Some?
    ensures var o := PerformConfiguration(Some(ctx), key, c, hooks, trace);
      !o.success && o.context == Some(Applied(c))
  {
    assert ValidateConstants(c, trace).None?;
  }

  /** SQL is bound before Mongo; each is called at most once, with the tenant's shard and
      database name. */
  lemma {:induction false} BindingOrder(hooks: Hooks, ctx: Values, trace: seq<string>)
    ensures var b := SetupConnections(hooks, ctx, trace);
      && |b.calls| <= 2
      && (|b.calls| == 2 ==> b.calls == [EstablishConnection(ctx.shard.s), OverrideClient(ToS(ctx.mongoDb))])
      && (forall i :: 0 <= i < |b.calls| && b.calls[i].EstablishConnection? ==> i == 0)
  {
  }

  /** SQL binding is skipped without `ApplicationRecord`; Mongo binding is skipped without
      `Mongoid` or with an empty database name. */
  lemma SkipRules(hooks: Hooks, ctx: Values, trace: seq<string>)
    ensures hooks.sql.Undefined? ==>
      forall call :: call in SetupConnections(hooks, ctx, trace).calls ==> !call.EstablishConnection?
    ensures hooks.mongo.Undefined? || ToS(ctx.mongoDb) == [] ==>
      forall call :: call in SetupConnections(hooks, ctx, trace).calls ==> !call.OverrideClient?
  {
  }

  /** A NoMethodError from `Mongoid.override_client` is swallowed with a warning: it does not
      make the configuration fail. */
  lemma MongoNoMethodErrorSwallowed(hooks: Hooks, ctx: Values, trace: seq<string>, e: RubyError)
    requires hooks.mongo == Defined(Raises(e)) && e.cls == NoMethodError
    requires ToS(ctx.mongoDb) != []
    requires EstablishSql(hooks.sql, ctx.shard, trace).raised.None?
    ensures SetupConnections(hooks, ctx, trace).raised.None?
    ensures Print(Warning, MONGO_WARNING) in SetupConnections(hooks, ctx, trace).events
  {
    assert SetupConnections(hooks, ctx, trace).events == [] + [Print(Warning, MONGO_WARNING)];
  }

  /** Any other exception from a binding, and any exception at all from the SQL binding,
      escapes and fails the configuration with that exception's message. */
  lemma BindingErrorsEscape(hooks: Hooks, ctx: Values, trace: seq<string>, e: RubyError)
    requires ctx.shard.Str?
    requires hooks.sql == Defined(Raises(e))
             || (EstablishSql(hooks.sql, ctx.shard, trace).raised.None? && ToS(ctx.mongoDb) != []
                 && hooks.mongo == Defined(Raises(e)) && e.cls != NoMethodError)
    ensures SetupConnections(hooks, ctx, trace).raised == Some(e)
  {
  }

  /** With SQL loaded, a tenant whose shard is present but nil fails on `nil.to_sym`, after
      the context was written. */
  lemma NilShardFails(c: Constants, ctx: Values, key: Key, hooks: Hooks, trace: seq<string>)
    requires SHARD in c && PARTNER_CODE in c && c[SHARD] == Nil && hooks.sql.Defined?
    ensures var o := PerformConfiguration(Some(ctx), key, c, hooks, trace);
      && !o.success && o.context == Some(Applied(c)) && o.calls == []
      && o.events[0] == Print(Error, FailureMessage(key, NilShardError(trace)))
  {
    assert ValidateConstants(c, trace).None?;
    var e := NilShardError(trace);
    assert SetupConnections(hooks, Applied(c), trace) == Bound([], [], Some(e));
    assert PerformConfiguration(Some(ctx), key, c, hooks, trace) == Failed(key, Some(Applied(c)), [], [], e);
  }
}
