/** `ConsoleKit::Configuration`: the record of settings the other components read. */
module Config {
  import opened Ruby
  import opened Tenants
  import opened Context

  class Configuration {
    var prettyOutput: bool
    var tenants: Option<Registry>
    var contextClass: TenantContext?

    /** `Configuration.new(pretty_output: true, tenants: nil, context_class: nil)`: the
        keyword arguments are stored unchanged; omitted ones take these defaults. */
    constructor (prettyOutput: bool := true, tenants: Option<Registry> := None,
                 contextClass: TenantContext? := null)
      ensures this.prettyOutput == prettyOutput
      ensures this.tenants == tenants
      ensures this.contextClass == contextClass
    {
      this.prettyOutput := prettyOutput;
      this.tenants := tenants;
      this.contextClass := contextClass;
    }

    /** `pretty_output=`: changes that field only. */
    method SetPrettyOutput(value: bool)
      modifies this`prettyOutput
      ensures prettyOutput == value
      ensures tenants == old(tenants) && contextClass == old(contextClass)
    {
      prettyOutput := value;
    }

    /** `tenants=`: changes that field only. */
    method SetTenants(value: Option<Registry>)
      modifies this`tenants
      ensures tenants == value
      ensures prettyOutput == old(prettyOutput) && contextClass == old(contextClass)
    {
      tenants := value;
    }

    /** `context_class=`: changes that field only. */
    method SetContextClass(value: TenantContext?)
      modifies this`contextClass
      ensures contextClass == value
      ensures prettyOutput == old(prettyOutput) && tenants == old(tenants)
    {
      contextClass := value;
    }
  }

  /** A configuration built with no arguments has pretty output on and no tenants or context. */
  method DefaultConfiguration() returns (c: Configuration)
    ensures fresh(c)
    ensures c.prettyOutput && c.tenants == None && c.contextClass == null
  {
    c := new Configuration();
  }
}
