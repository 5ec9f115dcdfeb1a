/** `ConsoleKit.setup`: the older, self-contained session set-up. It picks a tenant (the only
    one, the first one when standard input is not a terminal, or one chosen from a menu),
    writes its constants into the context object and binds both database clients, with its
    own prompt, parser and printer. Tenants and the context object are read through the
    memoised configuration, whose accessors replace the `attr_accessor` this file declares. */
module Setup {
  import opened Ruby
  import opened Tenants
  import opened Context
  import Output
  import TenantSelector
  import TC = TenantConfigurator
  import Config

  const MAX_ATTEMPTS: nat := 3
  const NO_TENANTS: string := "No tenants configured."
  const NO_TENANT_SELECTED: string := "No tenant selected. Loading without tenant configuration."
  const INVALID_SELECTION: string := "Invalid selection. Please try again."

  // ---------------------------------------------------------------------------
  // The printer: print_message and its helpers

  /** One `print_message(text, color)` call. */
  datatype Message = Message(text: string, color: Option<string>)

  function PrintError(text: string): Message { Message("[✗] " + text, Some("1;31")) }
  function PrintSuccess(text: string): Message { Message("[✓] " + text, Some("1;32")) }
  function PrintHeader(text: string): Message { Message("\n=== " + text + " ===", Some("1;34")) }
  function PrintInfo(text: string): Message { Message(text, None) }
  function PrintPrompt(text: string): Message { Message(text, Some("1;36")) }
  function PrintWarning(text: string): Message { Message("[!] " + text, Some("1;33")) }

  /** `print_backtrace`: one dim line per entry, without a timestamp. */
  function PrintBacktrace(lines: seq<string>): (messages: seq<Message>)
    ensures |messages| == |lines|
    ensures forall i :: 0 <= i < |lines| ==> messages[i] == Message("    " + lines[i], Some("0;90"))
  {
    seq(|lines|, i requires 0 <= i < |lines| => Message("    " + lines[i], Some("0;90")))
  }

  /** `print_message`: the string given to `puts`, coloured whenever a colour is given. */
  function PrintMessage(m: Message): string {
    var msg := "[ConsoleKit] " + m.text;
    match m.color
    case None => msg
    case Some(code) => [ESC] + "[" + code + "m" + msg + [ESC] + "[0m"
  }

  /** The formatter's event for the same call, as this printer would show it. */
  function FromEvent(e: Output.Event): Message {
    Message(Output.SymbolPrefix(Output.Symbol(e.level)) + e.text, Output.Color(e.level))
  }

  /** Each helper prints what the formatter's helper of the same name prints with pretty
      output on and no timestamp. */
  lemma HelpersMatchFormatter(text: string)
    ensures PrintError(text) == FromEvent(Output.Print(Output.Error, text))
    ensures PrintSuccess(text) == FromEvent(Output.Print(Output.Success, text))
    ensures PrintHeader(text) == FromEvent(Output.Print(Output.Header, text))
    ensures PrintInfo(text) == FromEvent(Output.Print(Output.Info, text))
    ensures PrintPrompt(text) == FromEvent(Output.Print(Output.Prompt, text))
    ensures PrintWarning(text) == FromEvent(Output.Print(Output.Warning, text))
  {
    SymbolHelperAlike(Output.Error, text);
    SymbolHelperAlike(Output.Success, text);
    SymbolHelperAlike(Output.Warning, text);
    PlainHelperAlike(Output.Header, text);
    PlainHelperAlike(Output.Info, text);
    PlainHelperAlike(Output.Prompt, text);
  }

  /** The three helpers that carry a symbol. */
  lemma SymbolHelperAlike(level: Output.Level, text: string)
    requires level in {Output.Error, Output.Success, Output.Warning}
    ensures level == Output.Error ==> PrintError(text) == FromEvent(Output.Print(level, text))
    ensures level == Output.Success ==> PrintSuccess(text) == FromEvent(Output.Print(level, text))
    ensures level == Output.Warning ==> PrintWarning(text) == FromEvent(Output.Print(level, text))
  {
    match level
    case Error => assert "[✗]" + " " == "[✗] ";
    case Success => assert "[✓]" + " " == "[✓] ";
    case Warning => assert "[!]" + " " == "[!] ";
  }

  /** The three helpers without a symbol. */
  lemma PlainHelperAlike(level: Output.Level, text: string)
    requires level in {Output.Header, Output.Info, Output.Prompt}
    ensures level == Output.Header ==> PrintHeader(text) == FromEvent(Output.Print(level, text))
    ensures level == Output.Info ==> PrintInfo(text) == FromEvent(Output.Print(level, text))
    ensures level == Output.Prompt ==> PrintPrompt(text) == FromEvent(Output.Print(level, text))
  {
    var e := Output.Print(level, text);
    assert "" + e.text == e.text;
  }

  /** A formatter event without a timestamp prints the same here as the formatter prints it
      with pretty output on. */
  lemma FromEventRendersAlike(e: Output.Event, now: string)
    requires !e.timestamp
    ensures PrintMessage(FromEvent(e)) == Output.Render(e, true, now)
  {
    var sym := Output.SymbolPrefix(Output.Symbol(e.level));
    Output.UntimestampedMessage(e.text, Output.Symbol(e.level), now);
    assert "[ConsoleKit] " + (sym + e.text) == "[ConsoleKit] " + sym + e.text;
  }

  /** This printer ignores `pretty_output`: an error is coloured even where the formatter,
      with pretty output off, prints it plain. */
  lemma {:induction false} ColouredRegardless(text: string, now: string)
    requires NoEscape(text) && NoEscape(now)
    ensures !NoEscape(PrintMessage(PrintError(text)))
    ensures NoEscape(Output.Render(Output.Print(Output.Error, text), false, now))
  {
    assert PrintMessage(PrintError(text))[0] == ESC;
    Output.EscapeIffColoured(Output.Print(Output.Error, text), false, now);
  }

  /** Backtrace lines carry no timestamp here, unlike the formatter's. */
  lemma BacktraceUntimestamped(lines: seq<string>, i: nat, now: string)
    requires i < |lines|
    ensures PrintMessage(PrintBacktrace(lines)[i])
         == Output.Render(Output.Event(Output.Trace, "    " + lines[i], false), true, now)
  {
    FromEventRendersAlike(Output.Event(Output.Trace, "    " + lines[i], false), now);
  }

  // ---------------------------------------------------------------------------
  // select_tenant and its parts

  function MenuLine(t: Registry, i: nat): Message
    requires i < |t|
  {
    PrintInfo("  " + NatToString(i + 1) + ". " + t[i].key + " (partner: " + PartnerLabel(t, t[i].key) + ")")
  }

  /** `print_tenant_selection_menu`: the header, the "0" line, one line per key. */
  function SelectionMenu(t: Registry): (menu: seq<Message>)
    ensures |menu| == |t| + 2
    ensures menu[0] == PrintHeader(TenantSelector.MENU_HEADER)
    ensures menu[1] == PrintInfo(TenantSelector.NO_TENANT_LINE)
    ensures forall i :: 0 <= i < |t| ==> menu[i + 2] == MenuLine(t, i)
  {
    [PrintHeader(TenantSelector.MENU_HEADER), PrintInfo(TenantSelector.NO_TENANT_LINE)]
      + seq(|t|, i requires 0 <= i < |t| => MenuLine(t, i))
  }

  /** The menu is line for line the one the tenant selector prints. */
  lemma SameMenuAsSelector(t: Registry, i: nat)
    requires i < |t| + 2
    ensures SelectionMenu(t)[i] == FromEvent(TenantSelector.Menu(t)[i])
  {
    if i >= 2 {
      MenuLineAlike(t, i - 2);
    } else if i == 1 {
      PlainHelperAlike(Output.Info, TenantSelector.NO_TENANT_LINE);
    } else {
      PlainHelperAlike(Output.Header, TenantSelector.MENU_HEADER);
    }
  }

  lemma MenuLineAlike(t: Registry, i: nat)
    requires i < |t|
    ensures MenuLine(t, i) == FromEvent(TenantSelector.MenuLine(t, i))
  {
    PlainHelperAlike(Output.Info, TenantSelector.MenuLine(t, i).text);
  }

  /** What one `prompt_user_for_selection` call returns and prints. */
  datatype Prompted = Prompted(index: int, messages: seq<Message>)

  /** `prompt_user_for_selection(max_index)` on the line `gets` returned: the stripped input
      (or "1") read with `to_i`; a value outside [0, max_index] warns and gives -1. */
  function PromptUserForSelection(line: Option<string>, maxIndex: nat): (p: Prompted)
    ensures -1 <= p.index <= maxIndex
    ensures p.index >= 0 ==> p.index == ToI(TenantSelector.ReadInputWithDefault(line))
    ensures p.index >= 0 <==> 0 <= ToI(TenantSelector.ReadInputWithDefault(line)) <= maxIndex
    ensures p.index == -1 <==> p.messages == [PrintPrompt(TenantSelector.PROMPT_MESSAGE), PrintWarning(INVALID_SELECTION)]
    ensures p.index >= 0 <==> p.messages == [PrintPrompt(TenantSelector.PROMPT_MESSAGE)]
  {
    var parsed := ToI(TenantSelector.ReadInputWithDefault(line));
    if 0 <= parsed <= maxIndex then Prompted(parsed, [PrintPrompt(TenantSelector.PROMPT_MESSAGE)])
    else Prompted(-1, [PrintPrompt(TenantSelector.PROMPT_MESSAGE), PrintWarning(INVALID_SELECTION)])
  }

  /** `keys[i]` with Ruby's negative indexing: -1 is the last key, -2 the one before. */
  function RubyIndex(keys: seq<Key>, i: int): (k: Option<Key>)
    ensures 0 <= i < |keys| ==> k == Some(keys[i])
    ensures -|keys| <= i < 0 ==> k == Some(keys[|keys| + i])
    ensures k.None? <==> i < -|keys| || |keys| <= i
  {
    if 0 <= i < |keys| then Some(keys[i])
    else if -|keys| <= i < 0 then Some(keys[|keys| + i])
    else None
  }

  /** What the three prompts return and print, each from its own line of input. */
  function Prompts(maxIndex: nat, stdin: seq<Option<string>>): (prompts: seq<Prompted>)
    ensures |prompts| == MAX_ATTEMPTS
  {
    seq(MAX_ATTEMPTS, i requires 0 <= i < MAX_ATTEMPTS =>
      PromptUserForSelection(TenantSelector.LineAt(stdin, i), maxIndex))
  }

  /** What a selection returns, prints and reads. */
  datatype Pick = Pick(result: Option<Key>, messages: seq<Message>, consumed: nat)

  /** The loop of `select_tenant` from attempt `attempt` on: 0 returns nil, an index whose
      key exists returns it, anything else goes on to the next attempt. */
  function Attempts(keys: seq<Key>, prompts: seq<Prompted>, attempt: nat): (p: Pick)
    requires attempt <= |prompts|
    ensures attempt <= p.consumed <= |prompts|
    ensures attempt < |prompts| ==> attempt < p.consumed
    ensures p.result.Some? ==> p.result.value in keys
    decreases |prompts| - attempt
  {
    if attempt == |prompts| then Pick(None, [], attempt)
    else
      var p := prompts[attempt];
      if p.index == 0 then Pick(None, p.messages, attempt + 1)
      else
        match RubyIndex(keys, p.index - 1)
        case Some(k) => Pick(Some(k), p.messages, attempt + 1)
        case None =>
          var rest := Attempts(keys, prompts, attempt + 1);
          Pick(rest.result, p.messages + rest.messages, rest.consumed)
  }

  /** `select_tenant(keys)`: the menu once, then up to three prompts. */
  function SelectTenantSpec(t: Registry, stdin: seq<Option<string>>): (p: Pick)
    ensures 1 <= p.consumed <= MAX_ATTEMPTS
    ensures p.result.Some? ==> p.result.value in Keys(t)
  {
    var a := Attempts(Keys(t), Prompts(|t|, stdin), 0);
    Pick(a.result, SelectionMenu(t) + a.messages, a.consumed)
  }

  /** One turn of the loop: how the attempts from `attempt` on follow from the prompt there
      and the attempts after it. */
  lemma AttemptStep(keys: seq<Key>, prompts: seq<Prompted>, attempt: nat)
    requires attempt < |prompts|
    ensures var p := prompts[attempt];
      var rest := Attempts(keys, prompts, attempt + 1);
      Attempts(keys, prompts, attempt)
        == if p.index == 0 then Pick(None, p.messages, attempt + 1)
           else if RubyIndex(keys, p.index - 1).Some? then Pick(RubyIndex(keys, p.index - 1), p.messages, attempt + 1)
           else Pick(rest.result, p.messages + rest.messages, rest.consumed)
  {
  }

  /** `select_tenant(keys)`: the menu, then the prompt loop. */
  method SelectTenant(t: Registry, stdin: seq<Option<string>>)
    returns (key: Option<Key>, messages: seq<Message>, consumed: nat)
    ensures Pick(key, messages, consumed) == SelectTenantSpec(t, stdin)
  {
    var asked;
    key, asked, consumed := PromptLoop(Keys(t), stdin);
    messages := SelectionMenu(t) + asked;
  }

  /** The `3.times` loop of `select_tenant`, with its early returns. */
  method PromptLoop(keys: seq<Key>, stdin: seq<Option<string>>)
    returns (key: Option<Key>, messages: seq<Message>, consumed: nat)
    ensures Pick(key, messages, consumed) == Attempts(keys, Prompts(|keys|, stdin), 0)
  {
    messages := [];
    ghost var prompts := Prompts(|keys|, stdin);
    assert messages + Attempts(keys, prompts, 0).messages == Attempts(keys, prompts, 0).messages;
    var attempt: nat := 0;
    while attempt < MAX_ATTEMPTS
      invariant attempt <= MAX_ATTEMPTS
      invariant Attempts(keys, prompts, 0).result == Attempts(keys, prompts, attempt).result
      invariant Attempts(keys, prompts, 0).consumed == Attempts(keys, prompts, attempt).consumed
      invariant Attempts(keys, prompts, 0).messages == messages + Attempts(keys, prompts, attempt).messages
    {
      var p := PromptUserForSelection(TenantSelector.LineAt(stdin, attempt), |keys|);
      assert p == prompts[attempt];
      LoopStep(keys, prompts, attempt, messages);
      messages := messages + p.messages;
      if p.index == 0 {
        return None, messages, attempt + 1;
      }
      var selected := RubyIndex(keys, p.index - 1);
      if selected.Some? {
        return selected, messages, attempt + 1;
      }
      attempt := attempt + 1;
    }
    key, consumed := None, MAX_ATTEMPTS;
  }

  /** One turn of `PromptLoop`: returning at attempt `attempt` gives what the prompts from 0
      give, and going on keeps the loop's invariant. */
  lemma LoopStep(keys: seq<Key>, prompts: seq<Prompted>, attempt: nat, messages: seq<Message>)
    requires attempt < |prompts|
    requires Attempts(keys, prompts, 0).result == Attempts(keys, prompts, attempt).result
    requires Attempts(keys, prompts, 0).consumed == Attempts(keys, prompts, attempt).consumed
    requires Attempts(keys, prompts, 0).messages == messages + Attempts(keys, prompts, attempt).messages
    ensures var p := prompts[attempt];
      var done := p.index == 0 || RubyIndex(keys, p.index - 1).Some?;
      var rest := Attempts(keys, prompts, attempt + 1);
      && (done ==> Attempts(keys, prompts, 0)
                   == Pick(if p.index == 0 then None else RubyIndex(keys, p.index - 1), messages + p.messages, attempt + 1))
      && (!done ==> && Attempts(keys, prompts, 0).result == rest.result
                    && Attempts(keys, prompts, 0).consumed == rest.consumed
                    && Attempts(keys, prompts, 0).messages == (messages + p.messages) + rest.messages)
  {
    var p := prompts[attempt];
    var rest := Attempts(keys, prompts, attempt + 1);
    AttemptStep(keys, prompts, attempt);
    TenantSelector.AppendAssociative(messages, p.messages, rest.messages);
  }

  // ---------------------------------------------------------------------------
  // configure_tenant, apply_context and setup_database_connections

  function UninitializedConstant(name: string, trace: seq<string>): RubyError {
    RubyError(NameError, "uninitialized constant " + name, trace)
  }

  /** The foreign calls made and the exception that escapes, if any. */
  datatype Connected = Connected(calls: seq<TC.Call>, raised: Option<RubyError>)

  /** `setup_database_connections`: neither library is checked for, so a missing one raises
      NameError, and Mongo is called even with an empty database name. */
  function SetupDatabaseConnections(hooks: TC.Hooks, ctx: Values, trace: seq<string>): (c: Connected)
    ensures |c.calls| <= 2
    ensures c.raised.None? ==> |c.calls| == 2 && c.calls[0].EstablishConnection? && c.calls[1].OverrideClient?
  {
    match hooks.sql
    case Undefined => Connected([], Some(UninitializedConstant("ApplicationRecord", trace)))
    case Defined(sqlOutcome) =>
      match ctx.shard
      case Nil => Connected([], Some(TC.NilShardError(trace)))
      case Str(shard) =>
        var sqlCall := [TC.EstablishConnection(shard)];
        if sqlOutcome.Raises? then Connected(sqlCall, Some(sqlOutcome.error))
        else
          match hooks.mongo
          case Undefined => Connected(sqlCall, Some(UninitializedConstant("Mongoid", trace)))
          case Defined(mongoOutcome) =>
            var calls := sqlCall + [TC.OverrideClient(ToS(ctx.mongoDb))];
            Connected(calls, if mongoOutcome.Raises? then Some(mongoOutcome.error) else None)
  }

  /** What `configure_tenant` printed, the context attributes afterwards (None when the
      context object is nil) and the foreign calls it made. */
  datatype Configured = Configured(messages: seq<Message>, context: Option<Values>, calls: seq<TC.Call>)

  function FailureMessages(key: Key, e: RubyError): seq<Message> {
    [PrintError("Failed to configure tenant '" + key + "': " + e.message)] + PrintBacktrace(e.backtrace)
  }

  /** `configure_tenant(key)` with the configured `tenants` and the current attributes of the
      context object. */
  function ConfigureSpec(tenants: Option<Registry>, ctx: Option<Values>, key: Key, hooks: TC.Hooks,
                         trace: seq<string>): (o: Configured)
    ensures o.messages != []
    ensures ctx.None? ==> o.context.None? && o.calls == []
    ensures o.calls != [] ==> o.calls[0].EstablishConnection?
  {
    match tenants
    case None => Configured(FailureMessages(key, TC.NilIndexError(trace)), ctx, [])
    case Some(r) =>
      match Lookup(r, key)
      case None => Configured([PrintError("No configuration found for tenant: " + key)], ctx, [])
      case Some(config) =>
        match config.constants
        case None => Configured(FailureMessages(key, TC.NilIndexError(trace)), ctx, [])
        case Some(c) =>
          if ctx.None? then Configured(FailureMessages(key, TC.NilContextError(trace)), ctx, [])
          else
            var written := TC.Applied(c);
            var b := SetupDatabaseConnections(hooks, written, trace);
            if b.raised.Some? then Configured(FailureMessages(key, b.raised.value), Some(written), b.calls)
            else Configured([PrintSuccess("Tenant set to: " + key)], Some(written), b.calls)
  }

  /** With a context object and constants for `key`, the attributes are written whatever the
      connections do; they stay written on failure, and success is printed exactly when no
      connection step raised. */
  lemma ConfigureSpecWrites(r: Registry, ctx: Values, key: Key, c: Constants, hooks: TC.Hooks,
                            trace: seq<string>)
    requires Lookup(r, key).Some? && Lookup(r, key).value.constants == Some(c)
    ensures var o := ConfigureSpec(Some(r), Some(ctx), key, hooks, trace);
            var b := SetupDatabaseConnections(hooks, TC.Applied(c), trace);
            && o.context == Some(TC.Applied(c))
            && o.calls == b.calls
            && (o.messages == [PrintSuccess("Tenant set to: " + key)] <==> b.raised.None?)
  {
    var b := SetupDatabaseConnections(hooks, TC.Applied(c), trace);
    if b.raised.Some? {
      var m := FailureMessages(key, b.raised.value)[0];
      assert m.text[4] == 'F' != PrintSuccess("Tenant set to: " + key).text[4];
    }
  }

  /** A key with no entry prints only "No configuration found", leaves the context as it was
      and makes no call. */
  lemma ConfigureSpecMissing(r: Registry, ctx: Option<Values>, key: Key, hooks: TC.Hooks,
                             trace: seq<string>)
    requires Lookup(r, key).None?
    ensures ConfigureSpec(Some(r), ctx, key, hooks, trace)
            == Configured([PrintError("No configuration found for tenant: " + key)], ctx, [])
  {
  }

  /** `apply_context(constants)`: nil constants raise on `constants[:shard]`, a nil context
      raises on `tenant_shard=`; otherwise the three attributes are written in turn. */
  method ApplyContext(ctx: TenantContext?, constants: Option<Constants>, trace: seq<string>)
    returns (raised: Option<RubyError>)
    modifies ctx
    ensures constants.None? ==> raised == Some(TC.NilIndexError(trace))
    ensures constants.Some? && ctx == null ==> raised == Some(TC.NilContextError(trace))
    ensures constants.Some? && ctx != null ==> raised == None && ctx.Snapshot() == TC.Applied(constants.value)
    ensures raised.Some? && ctx != null ==> ctx.Snapshot() == old(ctx.Snapshot())
  {
    if constants.None? {
      return Some(TC.NilIndexError(trace));
    }
    if ctx == null {
      return Some(TC.NilContextError(trace));
    }
    var c := constants.value;
    ctx.Assign(TenantShard, Get(c, SHARD));
    ctx.Assign(TenantMongoDb, Get(c, MONGO_DB));
    ctx.Assign(PartnerIdentifier, Get(c, PARTNER_CODE));
    assert ctx.Snapshot() == TC.Applied(c);
    raised := None;
  }

  /** `configure_tenant(key)`, writing the context object in place. */
  method ConfigureTenant(config: Config.Configuration, key: Key, hooks: TC.Hooks, trace: seq<string>)
    returns (messages: seq<Message>, calls: seq<TC.Call>)
    modifies config.contextClass
    ensures var o := ConfigureSpec(config.tenants, if config.contextClass == null then None
                                   else Some(old(config.contextClass.Snapshot())), key, hooks, trace);
      && messages == o.messages && calls == o.calls
      && (config.contextClass != null ==> Some(config.contextClass.Snapshot()) == o.context)
  {
    var ctx := config.contextClass;
    if config.tenants.None? {
      return FailureMessages(key, TC.NilIndexError(trace)), [];
    }
    var found := Lookup(config.tenants.value, key);
    if found.None? {
      return [PrintError("No configuration found for tenant: " + key)], [];
    }
    var raised := ApplyContext(ctx, found.value.constants, trace);
    if raised.Some? {
      return FailureMessages(key, raised.value), [];
    }
    var b := SetupDatabaseConnections(hooks, ctx.Snapshot(), trace);
    calls := b.calls;
    if b.raised.Some? {
      messages := FailureMessages(key, b.raised.value);
    } else {
      messages := [PrintSuccess("Tenant set to: " + key)];
    }
  }

  // ---------------------------------------------------------------------------
  // setup

  /** `$stdin.tty?`: its answer, or the exception it raises (on a closed stream, say). */
  datatype Probe = Answers(tty: bool) | ProbeRaises(error: RubyError)

  /** `resolve_tenant_key`: the first key without a prompt when there is one tenant or input
      is not a terminal, otherwise `select_tenant`; the probe is not asked when there is only
      one tenant. */
  datatype Resolved = Resolved(pick: Pick) | ResolveRaised(error: RubyError)

  function ResolveTenantKey(r: Registry, probe: Probe, stdin: seq<Option<string>>): (res: Resolved)
    ensures res.Resolved? ==> res.pick.consumed <= MAX_ATTEMPTS
    ensures res.Resolved? && r != [] ==> res.pick.result.None? || res.pick.result.value in Keys(r)
    ensures res.ResolveRaised? ==> |r| != 1 && probe.ProbeRaises?
  {
    var first := if r == [] then None else Some(Keys(r)[0]);
    if |r| == 1 then Resolved(Pick(first, [], 0))
    else
      match probe
      case ProbeRaises(e) => ResolveRaised(e)
      case Answers(tty) =>
        if !tty then Resolved(Pick(first, [], 0)) else Resolved(SelectTenantSpec(r, stdin))
  }

  /** A whole `setup` call: what it printed, the context attributes afterwards, the foreign
      calls and the number of input lines read. */
  datatype Session = Session(messages: seq<Message>, context: Option<Values>, calls: seq<TC.Call>, consumed: nat)

  /** `handle_setup_error`. */
  function HandleSetupError(e: RubyError): seq<Message> {
    [PrintError("Error setting up tenant: " + e.message)] + PrintBacktrace(e.backtrace)
  }

  function SetupSpec(tenants: Option<Registry>, ctx: Option<Values>, probe: Probe, stdin: seq<Option<string>>,
                     hooks: TC.Hooks, trace: seq<string>): (s: Session)
    ensures s.messages != []
    ensures s.consumed <= MAX_ATTEMPTS
    ensures ctx.None? ==> s.context.None? && s.calls == []
  {
    if tenants.None? || tenants.value == [] then Session([PrintError(NO_TENANTS)], ctx, [], 0)
    else
      match ResolveTenantKey(tenants.value, probe, stdin)
      case ResolveRaised(e) => Session(HandleSetupError(e), ctx, [], 0)
      case Resolved(p) =>
        match p.result
        case None => Session(p.messages + [PrintError(NO_TENANT_SELECTED)], ctx, [], p.consumed)
        case Some(key) =>
          var c := ConfigureSpec(tenants, ctx, key, hooks, trace);
          Session(p.messages + c.messages + [PrintSuccess("Tenant initialized: " + key)], c.context, c.calls, p.consumed)
  }

  /** `initialize_tenant(key)`: configure, then announce the tenant whatever happened. */
  method InitializeTenant(config: Config.Configuration, key: Key, hooks: TC.Hooks, trace: seq<string>)
    returns (messages: seq<Message>, calls: seq<TC.Call>)
    modifies config.contextClass
    ensures var o := ConfigureSpec(config.tenants, if config.contextClass == null then None
                                   else Some(old(config.contextClass.Snapshot())), key, hooks, trace);
      && messages == o.messages + [PrintSuccess("Tenant initialized: " + key)] && calls == o.calls
      && (config.contextClass != null ==> Some(config.contextClass.Snapshot()) == o.context)
  {
    messages, calls := ConfigureTenant(config, key, hooks, trace);
    messages := messages + [PrintSuccess("Tenant initialized: " + key)];
  }

  /** `setup`, reading `tenants` and `context_class` from `config`. */
  method RunSetup(config: Config.Configuration, probe: Probe, stdin: seq<Option<string>>, hooks: TC.Hooks,
                  trace: seq<string>)
    returns (messages: seq<Message>, calls: seq<TC.Call>, consumed: nat)
    modifies config.contextClass
    ensures var s := SetupSpec(config.tenants, if config.contextClass == null then None
                               else Some(old(config.contextClass.Snapshot())), probe, stdin, hooks, trace);
      && messages == s.messages && calls == s.calls && consumed == s.consumed
      && (config.contextClass != null ==> Some(config.contextClass.Snapshot()) == s.context)
  {
    if config.tenants.None? || config.tenants.value == [] {
      return [PrintError(NO_TENANTS)], [], 0;
    }
    var r := config.tenants.value;
    var key: Option<Key>;
    var shown: seq<Message> := [];
    consumed := 0;
    if |r| == 1 {
      key := Some(Keys(r)[0]);
    } else if probe.ProbeRaises? {
      return HandleSetupError(probe.error), [], 0;
    } else if !probe.tty {
      key := Some(Keys(r)[0]);
    } else {
      key, shown, consumed := SelectTenant(r, stdin);
    }
    if key.None? {
      return shown + [PrintError(NO_TENANT_SELECTED)], [], consumed;
    }
    var initialized;
    initialized, calls := InitializeTenant(config, key.value, hooks, trace);
    TenantSelector.AppendAssociative(shown, ConfigureSpec(config.tenants, if config.contextClass == null then None
                               else Some(old(config.contextClass.Snapshot())), key.value, hooks, trace).messages,
                      [PrintSuccess("Tenant initialized: " + key.value)]);
    messages := shown + initialized;
  }

  // ---------------------------------------------------------------------------
  // Properties of setup

  /** With no tenants configured, setup says so and neither prompts nor configures. */
  lemma NoTenantsConfigured(tenants: Option<Registry>, ctx: Option<Values>, probe: Probe,
                            stdin: seq<Option<string>>, hooks: TC.Hooks, trace: seq<string>)
    requires tenants.None? || tenants.value == []
    ensures SetupSpec(tenants, ctx, probe, stdin, hooks, trace)
         == Session([PrintError(NO_TENANTS)], ctx, [], 0)
  {
  }

  /** With one tenant, or when input is not a terminal, the first key is taken without a
      prompt. */
  lemma AutoSelectsFirstKey(r: Registry, probe: Probe, stdin: seq<Option<string>>)
    requires |r| == 1 || (|r| >= 1 && probe == Answers(false))
    ensures ResolveTenantKey(r, probe, stdin) == Resolved(Pick(Some(Keys(r)[0]), [], 0))
  {
  }

  /** A declined selection prints "No tenant selected…" last and changes nothing. */
  lemma NoTenantSelected(r: Registry, ctx: Option<Values>, probe: Probe, stdin: seq<Option<string>>,
                         hooks: TC.Hooks, trace: seq<string>)
    requires ResolveTenantKey(r, probe, stdin).Resolved?
    requires ResolveTenantKey(r, probe, stdin).pick.result.None?
    requires r != []
    ensures var s := SetupSpec(Some(r), ctx, probe, stdin, hooks, trace);
      && s.context == ctx && s.calls == []
      && s.messages[|s.messages| - 1] == PrintError(NO_TENANT_SELECTED)
  {
  }

  /** A chosen tenant is announced as initialized even when configuring it failed: the last
      line is always "Tenant initialized: key". */
  lemma InitializedDespiteFailure(r: Registry, ctx: Option<Values>, probe: Probe, stdin: seq<Option<string>>,
                                  hooks: TC.Hooks, trace: seq<string>, key: Key)
    requires r != []
    requires ResolveTenantKey(r, probe, stdin).Resolved?
    requires ResolveTenantKey(r, probe, stdin).pick.result == Some(key)
    ensures var s := SetupSpec(Some(r), ctx, probe, stdin, hooks, trace);
      s.messages[|s.messages| - 1] == PrintSuccess("Tenant initialized: " + key)
  {
  }

  /** With a missing context object configuring fails, yet setup still announces the tenant. */
  lemma NilContextStillAnnounced(r: Registry, stdin: seq<Option<string>>, hooks: TC.Hooks, trace: seq<string>)
    requires |r| == 1 && r[0].config.Some? && r[0].config.value.constants.Some?
    ensures var key := r[0].key;
      SetupSpec(Some(r), None, Answers(true), stdin, hooks, trace).messages
        == FailureMessages(key, TC.NilContextError(trace)) + [PrintSuccess("Tenant initialized: " + key)]
  {
    LookupAt(r, 0);
  }

  /** An exception from the terminal probe is rescued by setup and reported with its
      backtrace; nothing is configured. */
  lemma ProbeErrorRescued(r: Registry, ctx: Option<Values>, stdin: seq<Option<string>>, hooks: TC.Hooks,
                          trace: seq<string>, e: RubyError)
    requires |r| >= 2
    ensures SetupSpec(Some(r), ctx, ProbeRaises(e), stdin, hooks, trace)
         == Session([PrintError("Error setting up tenant: " + e.message)] + PrintBacktrace(e.backtrace), ctx, [], 0)
  {
  }

  /** With two or more tenants every prompt's index finds a key or is 0, so the first line of
      input always decides: `select_tenant` never asks twice. */
  lemma {:induction false} FirstLineDecides(t: Registry, stdin: seq<Option<string>>, index: int)
    requires |t| >= 2
    requires PromptUserForSelection(TenantSelector.LineAt(stdin, 0), |t|).index == index
    ensures SelectTenantSpec(t, stdin).consumed == 1
    ensures SelectTenantSpec(t, stdin).result == if index == 0 then None else RubyIndex(Keys(t), index - 1)
  {
    FirstPrompt(|t|, stdin);
    FirstPromptDecides(Keys(t), Prompts(|t|, stdin), index);
    SelectionOutcome(t, stdin);
  }

  /** The first prompt reads the first line of input. */
  lemma FirstPrompt(maxIndex: nat, stdin: seq<Option<string>>)
    ensures Prompts(maxIndex, stdin)[0] == PromptUserForSelection(TenantSelector.LineAt(stdin, 0), maxIndex)
  {
  }

  /** The result and the number of lines read are those of the prompt loop. */
  lemma SelectionOutcome(t: Registry, stdin: seq<Option<string>>)
    ensures SelectTenantSpec(t, stdin).result == Attempts(Keys(t), Prompts(|t|, stdin), 0).result
    ensures SelectTenantSpec(t, stdin).consumed == Attempts(Keys(t), Prompts(|t|, stdin), 0).consumed
  {
  }

  /** With two or more keys and an index in [-1, N], the first prompt ends the loop. */
  lemma FirstPromptDecides(keys: seq<Key>, prompts: seq<Prompted>, index: int)
    requires |keys| >= 2 && |prompts| >= 1 && prompts[0].index == index && -1 <= index <= |keys|
    ensures Attempts(keys, prompts, 0).consumed == 1
    ensures Attempts(keys, prompts, 0).result == if index == 0 then None else RubyIndex(keys, index - 1)
  {
    assert RubyIndex(keys, index - 1).Some?;
    AttemptStep(keys, prompts, 0);
  }

  /** A number past the last menu entry selects the second-to-last tenant instead of asking
      again (`keys[-1 - 1]`). */
  lemma OutOfRangePicksSecondToLast(t: Registry, stdin: seq<Option<string>>, n: nat)
    requires |t| >= 2 && n > |t|
    requires TenantSelector.LineAt(stdin, 0) == Some(NatToString(n) + "\n")
    ensures SelectTenantSpec(t, stdin).result == Some(Keys(t)[|t| - 2])
    ensures SelectTenantSpec(t, stdin).consumed == 1
  {
    var index := -1;
    PromptOfNumber(TenantSelector.LineAt(stdin, 0), n, |t|);
    FirstLineDecides(t, stdin, index);
    SecondToLast(t, index);
  }

  /** A negative number is outside 0..size, so it too reads as -1 and selects the
      second-to-last tenant: "-3" does not decline. */
  lemma NegativePicksSecondToLast(t: Registry, stdin: seq<Option<string>>, n: nat)
    requires |t| >= 2 && n >= 1
    requires TenantSelector.LineAt(stdin, 0) == Some("-" + NatToString(n) + "\n")
    ensures SelectTenantSpec(t, stdin).result == Some(Keys(t)[|t| - 2])
    ensures SelectTenantSpec(t, stdin).consumed == 1
  {
    var index := -1;
    PromptOfNegative(TenantSelector.LineAt(stdin, 0), n, |t|);
    FirstLineDecides(t, stdin, index);
    SecondToLast(t, index);
  }

  lemma PromptOfNegative(line: Option<string>, n: nat, maxIndex: nat)
    requires n >= 1 && line == Some("-" + NatToString(n) + "\n")
    ensures PromptUserForSelection(line, maxIndex).index == -1
  {
    ReadsNegative(n);
  }

  lemma ReadsNegative(n: nat)
    ensures ToI(TenantSelector.ReadInputWithDefault(Some("-" + NatToString(n) + "\n"))) == -(n as int)
  {
    var d := NatToString(n);
    var w := "-" + d;
    assert w[|w| - 1] == d[|d| - 1];
    TenantSelector.ReadTrimmed(w);
    assert w == "-" + d + [];
    ToIOfNumber("-", d, []);
    NatToStringRoundTrip(n);
  }

  /** `keys[-1 - 1]` is the second-to-last key. */
  lemma SecondToLast(t: Registry, index: int)
    requires |t| >= 2 && index == -1
    ensures RubyIndex(Keys(t), index - 1) == Some(Keys(t)[|t| - 2])
  {
  }

  /** A number up to max_index is the index; a larger one is -1. */
  lemma PromptOfNumber(line: Option<string>, n: nat, maxIndex: nat)
    requires line == Some(NatToString(n) + "\n")
    ensures PromptUserForSelection(line, maxIndex).index == if n <= maxIndex then n else -1
  {
    ReadsNumber(n);
  }

  /** The number printed in front of a tenant on the menu selects that tenant. */
  lemma MenuNumberSelects(t: Registry, stdin: seq<Option<string>>, i: nat)
    requires |t| >= 2 && i < |t|
    requires TenantSelector.LineAt(stdin, 0) == Some(NatToString(i + 1) + "\n")
    ensures SelectTenantSpec(t, stdin).result == Some(Keys(t)[i])
    ensures SelectTenantSpec(t, stdin).consumed == 1
  {
    var index := i + 1;
    PromptOfNumber(TenantSelector.LineAt(stdin, 0), index, |t|);
    FirstLineDecides(t, stdin, index);
    assert RubyIndex(Keys(t), index - 1) == Some(Keys(t)[i]);
  }

  /** A line holding a decimal number reads as that number. */
  lemma ReadsNumber(n: nat)
    ensures ToI(TenantSelector.ReadInputWithDefault(Some(NatToString(n) + "\n"))) == n
  {
    var s := NatToString(n);
    NatToStringRoundTrip(n);
    TenantSelector.ReadDigits(s + "\n", s);
    ToIOfDigits(s);
  }

  /** A word (no whitespace at either end, starting with neither a digit nor a sign) reads
      as `to_i` 0, a valid index, so setup picks no tenant after one read. */
  lemma WordDeclines(t: Registry, stdin: seq<Option<string>>, w: string)
    requires |t| >= 2
    requires Trimmed(w) && !IsDigit(w[0]) && w[0] != '-' && w[0] != '+'
    requires TenantSelector.LineAt(stdin, 0) == Some(w + "\n")
    ensures SelectTenantSpec(t, stdin).result == None
    ensures SelectTenantSpec(t, stdin).consumed == 1
  {
    WordReadsAsZero(w);
    FirstLineDecides(t, stdin, 0);
  }

  lemma WordReadsAsZero(w: string)
    requires Trimmed(w) && !IsDigit(w[0]) && w[0] != '-' && w[0] != '+'
    ensures ToI(TenantSelector.ReadInputWithDefault(Some(w + "\n"))) == 0
  {
    TenantSelector.ReadTrimmed(w);
    ToIOfNonNumber(w);
  }

  /** Constants without a partner code are rejected by the tenant configurator but accepted
      here: the context gets a nil partner identifier and "Tenant set to" is printed. */
  lemma SetupAcceptsWhatConfiguratorRejects(r: Registry, ctx: Values, key: Key, shard: string,
                                            hooks: TC.Hooks, trace: seq<string>)
    requires ConstantsOf(r, key) == Some(map[SHARD := Str(shard)])
    requires hooks == TC.Hooks(TC.Defined(TC.Returns), TC.Defined(TC.Returns))
    ensures !TC.ConfigureOutcome(Some(r), Some(ctx), key, hooks, trace).success
    ensures var o := ConfigureSpec(Some(r), Some(ctx), key, hooks, trace);
      && o.messages == [PrintSuccess("Tenant set to: " + key)]
      && o.context == Some(Values(Str(shard), Nil, Nil))
  {
    var c := map[SHARD := Str(shard)];
    assert PARTNER_CODE !in c;
    assert TC.ValidateConstants(c, trace).Some?;
    assert TC.Applied(c) == Values(Str(shard), Nil, Nil);
  }

  /** Mongo is called even when the tenant has no database name, with the empty string,
      where the tenant configurator skips it. */
  lemma MongoCalledWithEmptyName(ctx: Values, hooks: TC.Hooks, trace: seq<string>)
    requires ctx.shard.Str? && ctx.mongoDb == Nil
    requires hooks == TC.Hooks(TC.Defined(TC.Returns), TC.Defined(TC.Returns))
    ensures SetupDatabaseConnections(hooks, ctx, trace).calls
         == [TC.EstablishConnection(ctx.shard.s), TC.OverrideClient("")]
    ensures TC.SetupConnections(hooks, ctx, trace).calls == [TC.EstablishConnection(ctx.shard.s)]
  {
  }

  /** Without `ApplicationRecord` configuring fails with NameError before any call, where
      the tenant configurator just skips the SQL binding. */
  lemma MissingLibraryFails(ctx: Values, hooks: TC.Hooks, trace: seq<string>)
    requires hooks.sql.Undefined?
    ensures SetupDatabaseConnections(hooks, ctx, trace)
         == Connected([], Some(UninitializedConstant("ApplicationRecord", trace)))
    ensures TC.EstablishSql(hooks.sql, ctx.shard, trace).raised.None?
  {
  }
}
