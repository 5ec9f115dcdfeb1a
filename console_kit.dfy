/** The `ConsoleKit` module object: it memoises one `Configuration` in `@configuration` and
    offers delegating accessors for its fields. */
module ConsoleKit {
  import opened Ruby
  import opened Tenants
  import opened Context
  import Config

  class Singleton {
    /** `@configuration`, nil until first use. */
    var configuration: Config.Configuration?

    constructor ()
      ensures configuration == null
    {
      configuration := null;
    }

    /** `configuration`: `@configuration ||= Configuration.new`. */
    method Configuration() returns (c: Config.Configuration)
      modifies this
      ensures configuration == c
      ensures old(configuration) != null ==> c == old(configuration)
      ensures old(configuration) == null ==>
        fresh(c) && c.prettyOutput && c.tenants == None && c.contextClass == null
    {
      if configuration == null {
        configuration := new Config.Configuration();
      }
      c := configuration;
    }

    /** `configure { |config| ... }`: the block receives the memoised configuration; the block's
        own writes are the caller's calls of the setters on the returned object. */
    method Configure() returns (yielded: Config.Configuration)
      modifies this
      ensures configuration == yielded
      ensures old(configuration) != null ==> yielded == old(configuration)
      ensures old(configuration) == null ==>
        fresh(yielded) && yielded.prettyOutput && yielded.tenants == None && yielded.contextClass == null
    {
      yielded := Configuration();
    }

    /** `pretty_output`: reads the memoised configuration. */
    method PrettyOutput() returns (value: bool)
      modifies this
      ensures configuration != null && value == configuration.prettyOutput
      ensures old(configuration) != null ==> configuration == old(configuration)
      ensures old(configuration) == null ==> fresh(configuration) && value
    {
      var c := Configuration();
      value := c.prettyOutput;
    }

    /** `tenants`: reads the memoised configuration. */
    method Tenants() returns (value: Option<Registry>)
      modifies this
      ensures configuration != null && value == configuration.tenants
      ensures old(configuration) != null ==> configuration == old(configuration)
      ensures old(configuration) == null ==> fresh(configuration) && value == None
    {
      var c := Configuration();
      value := c.tenants;
    }

    /** `tenants=`: writes through to the memoised configuration, leaving its other fields. */
    method SetTenants(value: Option<Registry>)
      modifies this, configuration
      ensures configuration != null && configuration.tenants == value
      ensures old(configuration) != null ==>
        && configuration == old(configuration)
        && configuration.prettyOutput == old(configuration.prettyOutput)
        && configuration.contextClass == old(configuration.contextClass)
      ensures old(configuration) == null ==>
        fresh(configuration) && configuration.prettyOutput && configuration.contextClass == null
    {
      var c := Configuration();
      c.SetTenants(value);
    }

    /** `context_class`: reads the memoised configuration. */
    method ContextClass() returns (value: TenantContext?)
      modifies this
      ensures configuration != null && value == configuration.contextClass
      ensures old(configuration) != null ==> configuration == old(configuration)
      ensures old(configuration) == null ==> fresh(configuration) && value == null
    {
      var c := Configuration();
      value := c.contextClass;
    }

    /** `context_class=`: writes through to the memoised configuration, leaving its other fields. */
    method SetContextClass(value: TenantContext?)
      modifies this, configuration
      ensures configuration != null && configuration.contextClass == value
      ensures old(configuration) != null ==>
        && configuration == old(configuration)
        && configuration.prettyOutput == old(configuration.prettyOutput)
        && configuration.tenants == old(configuration.tenants)
      ensures old(configuration) == null ==>
        fresh(configuration) && configuration.prettyOutput && configuration.tenants == None
    {
      var c := Configuration();
      c.SetContextClass(value);
    }
  }

  /** Two reads of `configuration` give the same object. */
  method ConfigurationIsMemoised(kit: Singleton) returns (first: Config.Configuration, second: Config.Configuration)
    modifies kit
    ensures first == second
  {
    first := kit.Configuration();
    second := kit.Configuration();
  }

  /** `tenants=` then `tenants` gives back the stored value, and `context_class` and
      `pretty_output` are as before. */
  method TenantsRoundTrip(kit: Singleton, value: Option<Registry>)
    returns (read: Option<Registry>, pretty: bool, context: TenantContext?)
    modifies kit, kit.configuration
    ensures read == value
    ensures old(kit.configuration) != null ==>
      pretty == old(kit.configuration.prettyOutput) && context == old(kit.configuration.contextClass)
  {
    kit.SetTenants(value);
    read := kit.Tenants();
    pretty := kit.PrettyOutput();
    context := kit.ContextClass();
  }

  /** `context_class=` then `context_class` gives back the stored value. */
  method ContextClassRoundTrip(kit: Singleton, value: TenantContext?) returns (read: TenantContext?)
    modifies kit, kit.configuration
    ensures read == value
  {
    kit.SetContextClass(value);
    read := kit.ContextClass();
  }

  /** A `pretty_output` set inside `configure` is what `pretty_output` reads back. */
  method PrettyOutputRoundTrip(kit: Singleton, value: bool) returns (read: bool)
    modifies kit, kit.configuration
    ensures read == value
  {
    var config := kit.Configure();
    config.SetPrettyOutput(value);
    read := kit.PrettyOutput();
  }
}
