# console_kit, modelled in Dafny

console_kit is a Rails console helper for multi-tenant applications. It reads a configured
map of tenants. It picks one of them: the only one, the first one when standard input is not
a terminal, or one the operator chooses from a numbered menu. It then writes that tenant's
shard, Mongo database and partner code into the application's context object, and binds the
SQL and Mongo clients to them. Every step is reported through a small formatter that prints
`[ConsoleKit]`-tagged lines. The shared formatter (output.rb) colours them with ANSI codes when pretty output is on. setup.rb's own printer colours them whatever that setting says.

The model has one Dafny module per source file:

| module | file | source |
|---|---|---|
| `TenantSelector` | tenant_selector.dfy | lib/console_kit/tenant_selector.rb |
| `TenantConfigurator` | tenant_configurator.dfy | lib/console_kit/tenant_configurator.rb |
| `Setup` | setup.dfy | lib/console_kit/setup.rb |
| `Output` | output.dfy | lib/console_kit/output.rb |
| `ConsoleKit` | console_kit.dfy | lib/console_kit.rb |
| `Config` | configuration.dfy | lib/console_kit/configuration.rb |

There are also three shared modules:
- `Ruby` (ruby.dfy): `nil`, strings, raised exceptions, and the core-library string methods the helper relies on (`strip`, `chomp`, `to_i`, `Integer#to_s`, `join`).
- `Tenants` (tenants.dfy): the tenant map, an insertion-ordered list of unique keys.
- `Context` (context.dfy): the application's context object, a class with three writable attributes.

How the outside world appears in the model:
- Standard input is the list of lines `gets` will return, where `None` is end of input.
- `$stdin.tty?` is a `Probe`: an answer, or an exception.
- `Time.current` is the formatted string `now`.
- `ApplicationRecord.establish_connection` and `Mongoid.override_client` are `Hook`s: undefined, or defined and either returning or raising a given exception. The calls made are recorded.
- What is printed is a list of events: `Output.Event` for the formatter, `Setup.Message` for setup.rb's own printer.
- Exceptions Ruby raises by itself (calling a method on `nil`, a validation `raise`, an undefined constant) take their backtrace from a `trace` parameter.

Code that works by changing state is modelled imperatively:
- `Config.Configuration` and `ConsoleKit.Singleton` are classes whose methods state their new fields directly: which field a writer sets, that the others stay, that the memoised object is created once.
- `TenantConfigurator.Configurator` holds `@configuration_success`. Its `ConfigureTenant` and `Clear` are proved equal to the pure specification functions `ConfigureOutcome` and `CLEARED`, the latter with a loop over the three attributes.
- setup.rb's three-attempt loop is the method `Setup.PromptLoop`, proved equal to the specification function `Setup.Attempts`.
- `Setup.ConfigureTenant` and `Setup.RunSetup` are methods proved equal to `Setup.ConfigureSpec` and `Setup.SetupSpec`.
- The context writes are `Context.TenantContext.Assign`.

The properties are lemmas about the specification functions.

setup.rb differs from the tenant selector and configurator in several ways. The model keeps each component as written:
- **Setup reuses neither component.** lib/console_kit/setup.rb:47-143 carries its own selection, prompt, configuration and printer. Yet spec/console_kit/setup_spec.rb:24-25 expects `TenantConfigurator.configure_tenant` to be called, and the success line to go through `Output.print_success`.
- **Non-numeric input.** The selector rejects it and asks again (lib/console_kit/tenant_selector.rb:39; spec/console_kit/tenant_selector_spec.rb:30-32). setup.rb reads the input with `to_i` (lib/console_kit/setup.rb:77), so any word is 0, which declines (`Setup.WordDeclines`).
- **Numbers past the end.** A number past the last entry makes setup.rb's prompt return -1 (lib/console_kit/setup.rb:79-81). `keys[-2]` then picks the second-to-last tenant (`Setup.OutOfRangePicksSecondToLast`). A negative number does the same (`Setup.NegativePicksSecondToLast`).
- **Missing binding libraries.** The configurator skips a library that is not loaded (lib/console_kit/tenant_configurator.rb:61, 67; spec/console_kit/tenant_configurator_spec.rb:149-163). setup.rb calls both unguarded (lib/console_kit/setup.rb:107-110), so a missing one raises NameError (`Setup.MissingLibraryFails`).
- **"Tenant initialized".** setup.rb prints it after `configure_tenant` whatever the outcome (lib/console_kit/setup.rb:37-40), because `configure_tenant` rescues its own errors (lines 96-98). See `Setup.InitializedDespiteFailure`.
- **No undo.** When a binding fails, neither configure path resets the context attributes it already wrote (lib/console_kit/tenant_configurator.rb:46-53; lib/console_kit/setup.rb:91-93 and 101-105). See `TenantConfigurator.NoRollback` and `Setup.ConfigureSpecWrites`.
- **Backtrace timestamps.** spec/console_kit/output_spec.rb:75-81 expects backtrace lines without a timestamp, but lib/console_kit/output.rb:27 prints them with one. The model follows output.rb.

## Model

| member | source | states |
|---|---|---|
| `Config.Configuration.constructor` | lib/console_kit/configuration.rb:8-12 | the keyword arguments are stored unchanged; omitted ones default to pretty output on, no tenants, no context class |
| `Config.DefaultConfiguration` | lib/console_kit/configuration.rb:8-12 | `Configuration.new` with no arguments has `pretty_output` true and `tenants`, `context_class` nil |
| `Config.Configuration.SetPrettyOutput` | lib/console_kit/configuration.rb:6 | the writer sets its field and leaves the other two |
| `Config.Configuration.SetTenants` | lib/console_kit/configuration.rb:6 | the writer sets its field and leaves the other two |
| `Config.Configuration.SetContextClass` | lib/console_kit/configuration.rb:6 | the writer sets its field and leaves the other two |
| `ConsoleKit.Singleton.Configuration` | lib/console_kit.rb:18-20 | the first call creates a default configuration and stores it; later calls return the stored object |
| `ConsoleKit.Singleton.Configure` | lib/console_kit.rb:14-16 | the block receives the memoised configuration object |
| `ConsoleKit.Singleton.PrettyOutput` | lib/console_kit.rb:23-25 | reads `pretty_output` of the memoised configuration (true for a fresh one) |
| `ConsoleKit.Singleton.Tenants` | lib/console_kit.rb:27-29 | reads `tenants` of the memoised configuration (nil for a fresh one) |
| `ConsoleKit.Singleton.SetTenants` | lib/console_kit.rb:31-33 | writes `tenants` through to the memoised configuration, leaving `pretty_output` and `context_class` |
| `ConsoleKit.Singleton.ContextClass` | lib/console_kit.rb:35-37 | reads `context_class` of the memoised configuration (nil for a fresh one) |
| `ConsoleKit.Singleton.SetContextClass` | lib/console_kit.rb:39-41 | writes `context_class` through, leaving `pretty_output` and `tenants` |
| `ConsoleKit.ConfigurationIsMemoised` | lib/console_kit.rb:18-20 | two calls of `configuration` return the same object |
| `ConsoleKit.TenantsRoundTrip` | lib/console_kit.rb:27-41 | `tenants=` then `tenants` returns the value set; `pretty_output` and `context_class` are unchanged |
| `ConsoleKit.ContextClassRoundTrip` | lib/console_kit.rb:35-41 | `context_class=` then `context_class` returns the value set |
| `ConsoleKit.PrettyOutputRoundTrip` | lib/console_kit.rb:14-25 | a `pretty_output` set inside `configure` is what `pretty_output` reads back |
| `Output.PrintBacktrace` | lib/console_kit/output.rb:26-28 | one timestamped trace event `"    " + line` per backtrace entry, in order; none for a nil backtrace |
| `Output.Print` | lib/console_kit/output.rb:18-23 | `print_<type>(text, timestamp:)`: an event of that level carrying the text, a header's text framed as `\n=== text ===`; what it prints is stated by `Output.PlainLines` |
| `Output.TimestampPrefix` | lib/console_kit/output.rb:42-43 | `[now] ` when a timestamp is asked for, otherwise nothing; its length enters the length stated by `Output.BuildMessage` |
| `Output.SymbolPrefix` | lib/console_kit/output.rb:44 | the level's symbol and one space, or nothing when the level has none; `Output.SymbolLevels` says which levels have one |
| `Output.OutputLine` | lib/console_kit/output.rb:46-50 | the message wrapped in `\e[<colour>m` … `\e[0m` only when pretty output is on and the level has a colour, else the message itself; `Output.EscapeIffColoured` and `Output.RenderStripsToMessage` state both directions |
| `Output.Render` | lib/console_kit/output.rb:32-36 | `print_with`: the level's symbol and colour looked up in the table, the message built, then output; its properties are the lemmas `Output.EscapeIffColoured`, `Output.RenderStripsToMessage`, `Output.ColouredErrorReadable` |
| `Output.BuildMessage` | lib/console_kit/output.rb:38-44 | the message starts with `"[ConsoleKit] "`, ends with the text, and its length is the sum of tag, space, timestamp prefix, symbol prefix and text |
| `Output.UntimestampedMessage` | lib/console_kit/output.rb:38-44 | without a timestamp the message is `"[ConsoleKit] "`, the symbol and one space if any, then the text |
| `Output.PlainLines` | lib/console_kit/output.rb:18-23 | without colour each `print_<type>(text)` prints exactly `[ConsoleKit] ` + symbol + text, a header as `[ConsoleKit] \n=== text ===` |
| `Output.SymbolLevels` | lib/console_kit/output.rb:7-15 | a level has a symbol if and only if it is error, success or warning |
| `Output.ColorsAreCodes` | lib/console_kit/output.rb:7-15 | every colour in the table is a non-empty run of digits and semicolons |
| `Output.MessageHasNoEscape` | lib/console_kit/output.rb:38-44 | a message built from escape-free text and clock reading contains no escape character |
| `Output.EscapeIffColoured` | lib/console_kit/output.rb:46-50 | for text and clock reading without escape characters, a printed line contains an ANSI escape if and only if pretty output is on and the level has a colour |
| `Output.RenderStripsToMessage` | lib/console_kit/output.rb:38-50 | for text and clock reading without escape characters, removing the colour codes from a printed line gives back the built message |
| `Output.ColouredErrorReadable` | lib/console_kit/output.rb:38-50 | a coloured error of escape-free text, without its colour codes, reads `[ConsoleKit] [✗] text` |
| `Output.BacktraceLines` | lib/console_kit/output.rb:26-28 | each backtrace entry prints as `[ConsoleKit] [now]     entry` in the trace colour |
| `Tenants.PartnerLabel` | lib/console_kit/tenant_selector.rb:35 | the partner code when the tenant's constants carry one, `N/A` when constants or code are missing |
| `Ruby.ToIOfDigits` | lib/console_kit/tenant_selector.rb:41 | `to_i` of a non-empty digit string is the number the digits denote |
| `Ruby.Strip` | lib/console_kit/tenant_selector.rb:53 | `String#strip`: never longer than its input, and neither end of the result is whitespace |
| `Ruby.StripRemovesEndSpace` | lib/console_kit/tenant_selector.rb:53 | the result of `strip` is a slice of its input with only whitespace before and after it; with `Ruby.Strip`'s contract this makes it the input less the whitespace at both ends |
| `Ruby.StripTrimmed` | lib/console_kit/tenant_selector.rb:53 | `strip` leaves text with no whitespace at either end unchanged |
| `Ruby.Chomp` | lib/console_kit/tenant_selector.rb:53 | `String#chomp`: a prefix of its input, and what it drops is whitespace |
| `Ruby.ChompDropsLineEnding` | lib/console_kit/tenant_selector.rb:53 | what `chomp` drops is nothing, "\n", "\r" or "\r\n"; a trailing "\r\n" goes whole and a trailing "\n" or "\r" always goes, which fixes the result |
| `Ruby.ToI` | lib/console_kit/setup.rb:77 | `String#to_i`: never negative unless the text, after leading whitespace, starts with `-`; `Ruby.ToIOfDigits`, `Ruby.ToIOfNumber` and `Ruby.ToIOfNonNumber` give its value on digits, on signed numbers followed by text, and on words |
| `Ruby.ToIOfNumber` | lib/console_kit/setup.rb:77 | `to_i` of an optional sign, digits, then text that cannot continue the number is the digits' value, negated after `-` (`"2abc"` is 2, `"-3"` is -3) |
| `TenantSelector.Menu` | lib/console_kit/tenant_selector.rb:26-33 | the header, the "0. Load without tenant" line, then one line per tenant in insertion order, numbered from 1 |
| `TenantSelector.MenuShowsNoPartner` | lib/console_kit/tenant_selector.rb:31-35 | a tenant without constants or partner code is listed as `(partner: N/A)` |
| `TenantSelector.ReadInputWithDefault` | lib/console_kit/tenant_selector.rb:49-55 | the chomped and stripped line, or `'1'` for a blank line or end of input; never empty |
| `TenantSelector.ReadTrimmed` | lib/console_kit/tenant_selector.rb:53-54 | a line holding text with no whitespace at either end, then its line ending, reads as exactly that text |
| `Ruby.ChompStripEmptyIff` | lib/console_kit/tenant_selector.rb:53-54 | a line becomes empty after chomp and strip if and only if it is all whitespace, so exactly those lines take the default |
| `TenantSelector.ParseUserSelection` | lib/console_kit/tenant_selector.rb:37-60 | accepted if and only if the input is all digits with value in [0, N], and then that value; otherwise the "Invalid input" or "Selection must be between 0 and N." warning |
| `TenantSelector.SelectionIsToI` | lib/console_kit/tenant_selector.rb:41 | an accepted selection equals the input's `to_i` |
| `TenantSelector.OutOfRangeWarns` | lib/console_kit/tenant_selector.rb:41-44 | a number above N is rejected with "Selection must be between 0 and N." |
| `TenantSelector.ResolveSelection` | lib/console_kit/tenant_selector.rb:62-66 | 0 gives nil; i in 1..N gives the i-th key in insertion order |
| `TenantSelector.Select` | lib/console_kit/tenant_selector.rb:12-24 | `select`: `attempt_selection(3)`, reading between one and three lines and returning only configured keys |
| `TenantSelector.AttemptSelection` | lib/console_kit/tenant_selector.rb:18-24 | reads at most `retries_left` lines, at least one when any are left, and returns only configured keys |
| `TenantSelector.FirstAcceptedDecides` | lib/console_kit/tenant_selector.rb:18-24 | the first accepted line within the budget decides the result, after exactly that many reads; 0 stops with nil |
| `TenantSelector.AllRejectedGivesNil` | lib/console_kit/tenant_selector.rb:8-24 | if every line within the budget is rejected, the result is nil after reading exactly `retries_left` lines |
| `TenantSelector.BlankLineSelectsFirst` | lib/console_kit/tenant_selector.rb:49-55 | Enter on a blank line, or end of input, selects the first tenant after one read |
| `TenantSelector.MenuNumberSelects` | lib/console_kit/tenant_selector.rb:62-66 | typing the number the menu shows for a tenant selects that tenant |
| `TenantSelector.ZeroDeclines` | lib/console_kit/tenant_selector.rb:62-63 | "0" returns nil at once, after one read |
| `TenantSelector.NonNumbersExhaustRetries` | lib/console_kit/tenant_selector.rb:18-24 | three non-numbers give nil, showing menu, prompt and warning three times |
| `TenantSelector.InvalidThenValid` | lib/console_kit/tenant_selector.rb:18-24 | "invalid" then "1" selects the first tenant; the menu is shown again for the second attempt |
| `TenantConfigurator.MissingKeys` | lib/console_kit/tenant_configurator.rb:31 | the required keys `shard`, `partner_code` that are absent, in that order; a key present with a nil value is not missing |
| `TenantConfigurator.ValidateConstants` | lib/console_kit/tenant_configurator.rb:30-33 | raises a RuntimeError if and only if `shard` or `partner_code` is absent |
| `TenantConfigurator.ValidationMessage` | lib/console_kit/tenant_configurator.rb:32 | the message is "Tenant constants missing keys: " and the missing keys joined by ", " |
| `TenantConfigurator.MissingPartnerCodeMessage` | lib/console_kit/tenant_configurator.rb:31-32 | constants with a shard but no partner code report exactly `partner_code` missing |
| `TenantConfigurator.Configurator.constructor` | lib/console_kit/tenant_configurator.rb:9 | the success flag starts false |
| `TenantConfigurator.ConfigureOutcome` | lib/console_kit/tenant_configurator.rb:11-18 | `configure_tenant` as a value: the flag is set if and only if true is returned; nil is returned if and only if the tenant or its constants are missing; a nil context object is never written and nothing is bound |
| `TenantConfigurator.PerformConfiguration` | lib/console_kit/tenant_configurator.rb:40-53 | `perform_configuration`: success if and only if true is returned; never returns nil (a failure returns the backtrace); with a nil context object nothing is written or bound |
| `TenantConfigurator.SetupConnections` | lib/console_kit/tenant_configurator.rb:55-58 | SQL then Mongo: the only thing printed is the Mongo warning, and a NoMethodError escapes only from a defined SQL binding (Mongo's is rescued) |
| `TenantConfigurator.EstablishSql` | lib/console_kit/tenant_configurator.rb:60-64 | prints nothing and makes at most one call; without `ApplicationRecord` no call and no exception |
| `TenantConfigurator.EstablishMongo` | lib/console_kit/tenant_configurator.rb:66-75 | at most one call; a NoMethodError never escapes; when something is printed it is the one warning and nothing is raised |
| `TenantConfigurator.Configurator.ConfigureTenant` | lib/console_kit/tenant_configurator.rb:11-18 | flag, context attributes, printed events, foreign calls and return value are those of the specification `ConfigureOutcome` |
| `TenantConfigurator.Configurator.Perform` | lib/console_kit/tenant_configurator.rb:40-53 | validation, in-place context writes and binding agree with the specification `PerformConfiguration` |
| `TenantConfigurator.Configurator.MissingConfigError` | lib/console_kit/tenant_configurator.rb:35-38 | clears the flag, prints "No configuration found for tenant: key", returns nil |
| `TenantConfigurator.Configurator.HandleError` | lib/console_kit/tenant_configurator.rb:82-86 | clears the flag, prints "Failed to configure tenant 'key': message" and the backtrace, returns the backtrace |
| `TenantConfigurator.Configurator.Clear` | lib/console_kit/tenant_configurator.rb:20-26 | clears the flag, sets the three context attributes to nil and prints "Tenant context has been cleared."; a nil context raises NoMethodError after the flag is cleared |
| `TenantConfigurator.ClearIsIdempotent` | lib/console_kit/tenant_configurator.rb:20-26 | clearing twice leaves the same cleared context and flag as clearing once |
| `TenantConfigurator.MissingConfiguration` | lib/console_kit/tenant_configurator.rb:11-38 | a missing tenant or constants: flag false, context untouched, nothing bound, "No configuration found" printed, nil returned |
| `TenantConfigurator.ValidationPrecedesWrites` | lib/console_kit/tenant_configurator.rb:40-44 | constants lacking `shard` or `partner_code` fail before any context write or binding, with the validation message |
| `TenantConfigurator.SuccessIff` | lib/console_kit/tenant_configurator.rb:40-58 | success if and only if both keys are present, there is a context object and no binding exception escapes |
| `TenantConfigurator.SuccessWritesContext` | lib/console_kit/tenant_configurator.rb:46-80 | on success the context holds the tenant's shard, Mongo database (nil if absent) and partner code, "Tenant set to: key" is printed last, true is returned |
| `TenantConfigurator.FailureReported` | lib/console_kit/tenant_configurator.rb:82-86 | every failure after the lookup prints "Failed to configure tenant" with the error's message then its backtrace, and returns the backtrace |
| `TenantConfigurator.NoRollback` | lib/console_kit/tenant_configurator.rb:46-53 | a binding failure leaves the context as written |
| `TenantConfigurator.BindingOrder` | lib/console_kit/tenant_configurator.rb:55-58 | at most two calls, the SQL call first, with the tenant's shard and database name |
| `TenantConfigurator.SkipRules` | lib/console_kit/tenant_configurator.rb:60-70 | no SQL call without `ApplicationRecord`; no Mongo call without `Mongoid` or with an empty database name |
| `TenantConfigurator.MongoNoMethodErrorSwallowed` | lib/console_kit/tenant_configurator.rb:66-75 | a NoMethodError from `override_client` becomes a warning and does not fail the configuration |
| `TenantConfigurator.BindingErrorsEscape` | lib/console_kit/tenant_configurator.rb:60-75 | any SQL exception, and any non-NoMethodError Mongo exception, escapes the binding step |
| `TenantConfigurator.NilShardFails` | lib/console_kit/tenant_configurator.rb:63 | with SQL loaded, a nil shard fails on `to_sym` after the context was written |
| `Context.TenantContext.Assign` | lib/console_kit/tenant_configurator.rb:23 | writing one attribute leaves the other two unchanged |
| `Setup.PrintBacktrace` | lib/console_kit/setup.rb:120-122 | one dim line `"    " + entry` per backtrace entry, in order |
| `Setup.PrintMessage` | lib/console_kit/setup.rb:140-143 | `print_message`: `[ConsoleKit] ` and the text, wrapped in colour codes whenever a colour is given; `Setup.FromEventRendersAlike` and `Setup.ColouredRegardless` compare it with the formatter |
| `Setup.HelpersMatchFormatter` | lib/console_kit/setup.rb:112-138 | each of setup's print helpers prints the formatter's event of the same level |
| `Setup.FromEventRendersAlike` | lib/console_kit/setup.rb:140-143 | setup's printer prints what the formatter prints with pretty output on and no timestamp |
| `Setup.ColouredRegardless` | lib/console_kit/setup.rb:140-143 | setup colours an error even where the formatter, with pretty output off, prints it plain |
| `Setup.BacktraceUntimestamped` | lib/console_kit/setup.rb:120-122 | setup's backtrace lines are the formatter's trace lines without a timestamp |
| `Setup.SelectionMenu` | lib/console_kit/setup.rb:62-70 | the header, the "0" line, then one numbered line per tenant in insertion order |
| `Setup.SameMenuAsSelector` | lib/console_kit/setup.rb:62-70 | each menu line is the tenant selector's menu line |
| `Setup.PromptUserForSelection` | lib/console_kit/setup.rb:72-85 | the index is in [-1, max_index]; it is non-negative if and only if the input's `to_i` is in [0, max_index], and then equals it; -1 if and only if the "Invalid selection" warning follows the prompt |
| `Ruby.ToIOfNonNumber` | lib/console_kit/setup.rb:77 | `to_i` of text starting with no sign, digit or space is 0 |
| `Setup.RubyIndex` | lib/console_kit/setup.rb:55 | `keys[i]`, counting from the end for negative i; nil outside [-N, N) |
| `Setup.Attempts` | lib/console_kit/setup.rb:50-59 | reads at most the remaining attempts, at least one when any are left, and returns only configured keys |
| `Setup.PromptLoop` | lib/console_kit/setup.rb:50-59 | the `3.times` loop with its early returns computes the specification `Attempts` |
| `Setup.SelectTenant` | lib/console_kit/setup.rb:47-60 | the menu once, then the loop, as the specification `SelectTenantSpec` |
| `Setup.SelectTenantSpec` | lib/console_kit/setup.rb:47-60 | reads between one and three lines and returns nil or a configured key |
| `Setup.FirstLineDecides` | lib/console_kit/setup.rb:50-57 | with two or more tenants the first line always decides after one read: index 0 gives nil, any other index i the key `keys[i - 1]` (which always exists) |
| `Setup.OutOfRangePicksSecondToLast` | lib/console_kit/setup.rb:50-56 | a number past the last tenant selects the second-to-last tenant instead of asking again |
| `Setup.MenuNumberSelects` | lib/console_kit/setup.rb:50-56 | typing the number the menu shows for a tenant selects that tenant after one read |
| `Setup.WordDeclines` | lib/console_kit/setup.rb:74-84 | any word (no whitespace at its ends, first character neither a digit nor a sign) reads as 0, so setup picks no tenant after one read |
| `Setup.NegativePicksSecondToLast` | lib/console_kit/setup.rb:50-84 | a negative number is outside 0..size, reads as -1 and selects the second-to-last tenant after one read |
| `Setup.ApplyContext` | lib/console_kit/setup.rb:101-105 | nil constants or a nil context raise NoMethodError with nothing written; otherwise the three attributes hold the tenant's values |
| `Setup.SetupDatabaseConnections` | lib/console_kit/setup.rb:107-110 | at most two calls; without an exception exactly two, `establish_connection` then `override_client` |
| `Setup.ConfigureSpec` | lib/console_kit/setup.rb:87-105 | something is always printed; a nil context object is never written or bound; any call made starts with `establish_connection`; `Setup.ConfigureSpecWrites` and `Setup.ConfigureSpecMissing` give the outcome of the found and missing key |
| `Setup.ConfigureSpecWrites` | lib/console_kit/setup.rb:87-105 | with a context object and constants for the key, the three attributes are written whatever the connections do and stay written when one fails; the calls are those of `setup_database_connections`; success is printed exactly when no step raised |
| `Setup.ConfigureSpecMissing` | lib/console_kit/setup.rb:88-89 | a key with no entry prints only "No configuration found for tenant: " and the key, leaves the context as it was and makes no call |
| `Setup.ConfigureTenant` | lib/console_kit/setup.rb:87-99 | printed lines, context attributes and foreign calls are those of the specification `ConfigureSpec` |
| `Setup.InitializeTenant` | lib/console_kit/setup.rb:37-40 | configure, then "Tenant initialized: key" whatever the outcome |
| `Setup.RunSetup` | lib/console_kit/setup.rb:8-17 | printed lines, context attributes, foreign calls and lines read are those of the specification `SetupSpec` |
| `Setup.SetupSpec` | lib/console_kit/setup.rb:8-17 | something is always printed, at most three lines are read, and a nil context object is never written or bound |
| `Setup.ResolveTenantKey` | lib/console_kit/setup.rb:25-35 | at most three lines read; the key is nil or configured; an exception comes only from the terminal probe, which is not consulted for one tenant |
| `Setup.HandleSetupError` | lib/console_kit/setup.rb:42-45 | "Error setting up tenant: message" then the backtrace; `Setup.ProbeErrorRescued` shows it is what setup prints when the probe raises |
| `Setup.NoTenantsConfigured` | lib/console_kit/setup.rb:9 | nil or empty tenants print "No tenants configured." only; nothing is read, written or bound |
| `Setup.AutoSelectsFirstKey` | lib/console_kit/setup.rb:25-35 | one tenant, or a non-terminal input, takes the first key without a prompt |
| `Setup.NoTenantSelected` | lib/console_kit/setup.rb:11-12 | a declined selection ends with "No tenant selected…" and writes and binds nothing |
| `Setup.InitializedDespiteFailure` | lib/console_kit/setup.rb:37-40 | a selected tenant is always announced as initialized last |
| `Setup.NilContextStillAnnounced` | lib/console_kit/setup.rb:87-99 | with no context object configuring fails with a backtrace, and the tenant is still announced |
| `Setup.ProbeErrorRescued` | lib/console_kit/setup.rb:42-45 | an exception from the terminal probe prints "Error setting up tenant" and the backtrace, and nothing else happens |
| `Setup.SetupAcceptsWhatConfiguratorRejects` | lib/console_kit/setup.rb:87-105 | constants without a partner code fail in the configurator but succeed here, leaving a nil partner identifier |
| `Setup.MongoCalledWithEmptyName` | lib/console_kit/setup.rb:107-110 | setup calls `override_client("")` for a tenant without a database, where the configurator skips the call |
| `Setup.MissingLibraryFails` | lib/console_kit/setup.rb:107-110 | without `ApplicationRecord` setup fails with NameError, where the configurator skips the SQL binding |

## Left out

- lib/generators/console_kit/install_generator.rb and lib/console_kit/railtie.rb: Rails generator and console-hook plumbing.
- Terminal I/O: `puts` and `$stdin.gets` become event lists and an input list. A `gets` that raises, and output that fails, are not modelled. The only exception source outside configuration is the terminal probe.
- `Time.current`: it becomes the formatted string `now`; no clock is modelled.
- The bodies of `ApplicationRecord.establish_connection` and `Mongoid.override_client`: each is a hook that returns or raises a given exception. Which connection they open is outside the model.
- Ruby's exception messages for `nil` receivers and undefined constants follow Ruby 3.4 wording. The backtraces Ruby attaches are a parameter.
- `setup.rb`'s own `attr_accessor :tenants, :context_class` and `configure` (lines 6 and 19-21): lib/console_kit.rb redefines these after loading setup.rb. The model reads tenants and the context through the memoised configuration, as the running program does.
- Tenant maps that are not Hashes, and configurations or constants that are not Hashes: tenants form a `Registry` of unique keys; configurations and constants are records.
- `TenantSelector.Select` assumes the configured tenants are a Hash, so it takes a `Registry`. No file in lib/ calls `TenantSelector.select`. With nil tenants, Ruby's `select` raises NoMethodError on `ConsoleKit.tenants.keys`; the model does not cover that case.
- `Ruby.Val`: a constant or context value is either nil or a string. Other values are not modelled:
  - An Integer shard would make `to_sym` raise NoMethodError inside the SQL binding.
  - A `false` partner code would be shown as `N/A` on the menu.
  - A number or a symbol in a constant would be turned into a string by `to_s` or `#{}`.
- `Ruby.ErrorClass`: every exception in the model is a StandardError, so the `rescue StandardError` clauses catch it. These are lib/console_kit/tenant_configurator.rb:16 and lib/console_kit/setup.rb:15 and 96. A hook that raises an exception outside StandardError (NotImplementedError, Interrupt, SystemExit) would escape both rescues; the model does not represent that.
- Exceptions always carry a backtrace in the model; an exception whose backtrace is nil is not modelled, so setup.rb's `print_backtrace` cannot fail on one.
- `configuration_success` starts as nil in Ruby; the model starts it as false, which reads the same.
- The session lifecycle (`current_tenant`, `reset_current_tenant`) and the per-thread configuration appear only in tests. lib/console_kit.rb keeps one `@configuration` with no thread handling.
- The selector tests call `select(tenants, keys)`; lib/console_kit/tenant_selector.rb:12 takes no arguments and reads the configured tenants. The model follows the code.
- `TenantSelector.Select` and `Setup.SelectTenantSpec` take each attempt's outcome from its own line of input, listed before the attempts run. Each outcome depends only on its line, so the result is the same as reading the lines one at a time.
