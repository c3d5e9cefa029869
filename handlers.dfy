/** The handlers the system ships with, as one closed set: the mapping-driven
    handler and the four keyword handlers. */
module Handlers {
  import opened Wrappers
  import opened Remediation
  import opened HandlerBase
  import YamlConfig
  import ExampleHandlers

  datatype Handler = YamlConfigHandler | HighCpuHandler | DiskSpaceHandler | ServiceDownHandler | MemoryHandler

  /** The `name` property. */
  function Name(h: Handler): (r: string)
    ensures r == "yaml_config" <==> h == YamlConfigHandler
  {
    match h
    case YamlConfigHandler => YamlConfig.Name
    case HighCpuHandler => ExampleHandlers.HighCpuName
    case DiskSpaceHandler => ExampleHandlers.DiskSpaceName
    case ServiceDownHandler => ExampleHandlers.ServiceDownName
    case MemoryHandler => ExampleHandlers.MemoryName
  }

  /** Different handlers have different names. */
  lemma NameInjective(h: Handler, h': Handler)
    ensures Name(h) == Name(h') <==> h == h'
  {
  }

  /** The `description` property. */
  function Description(h: Handler): string
  {
    match h
    case YamlConfigHandler => YamlConfig.Description
    case HighCpuHandler => ExampleHandlers.HighCpuDescription
    case DiskSpaceHandler => ExampleHandlers.DiskSpaceDescription
    case ServiceDownHandler => ExampleHandlers.ServiceDownDescription
    case MemoryHandler => ExampleHandlers.MemoryDescription
  }

  /** `can_handle`: only the mapping-driven handler looks at the configuration. */
  predicate CanHandle(h: Handler, ctx: HandlerContext)
  {
    match h
    case YamlConfigHandler => YamlConfig.CanHandle(ctx)
    case HighCpuHandler => ExampleHandlers.HighCpuCanHandle(ctx)
    case DiskSpaceHandler => ExampleHandlers.DiskSpaceCanHandle(ctx)
    case ServiceDownHandler => ExampleHandlers.ServiceDownCanHandle(ctx)
    case MemoryHandler => ExampleHandlers.MemoryCanHandle(ctx)
  }

  /** What `get_actions` returns; only the mapping-driven handler can fail. */
  function Actions(h: Handler, ctx: HandlerContext): (r: Result<seq<RemediationAction>>)
    ensures h != YamlConfigHandler ==> r.Ok?
  {
    match h
    case YamlConfigHandler => YamlConfig.YamlActions(ctx)
    case HighCpuHandler => Ok(ExampleHandlers.HighCpuActions(ctx))
    case DiskSpaceHandler => Ok(ExampleHandlers.DiskSpaceActions(ctx))
    case ServiceDownHandler => Ok(ExampleHandlers.ServiceDownActions(ctx))
    case MemoryHandler => Ok(ExampleHandlers.MemoryActions(ctx))
  }

  /** The keyword handlers decide on the alert alone: the configuration they
      are probed with does not matter. */
  lemma KeywordHandlersIgnoreConfig(h: Handler, ctx: HandlerContext, config: MappingConfig)
    requires h != YamlConfigHandler
    ensures CanHandle(h, ctx) == CanHandle(h, HandlerContext(ctx.alert, config))
  {
  }

  /** The mapping-driven handler never accepts the empty configuration. */
  lemma YamlRejectsEmptyConfig(ctx: HandlerContext)
    requires ctx.config == EmptyConfig
    ensures !CanHandle(YamlConfigHandler, ctx)
  {
  }

  /** `get_actions`, dispatched to the handler's own code. */
  method GetActions(h: Handler, ctx: HandlerContext) returns (r: Result<seq<RemediationAction>>)
    ensures r == Actions(h, ctx)
  {
    match h
    case YamlConfigHandler => r := YamlConfig.GetActions(ctx);
    case HighCpuHandler => r := Ok(ExampleHandlers.HighCpuActions(ctx));
    case DiskSpaceHandler => r := Ok(ExampleHandlers.DiskSpaceActions(ctx));
    case ServiceDownHandler => r := Ok(ExampleHandlers.ServiceDownActions(ctx));
    case MemoryHandler => r := Ok(ExampleHandlers.MemoryActions(ctx));
  }
}
