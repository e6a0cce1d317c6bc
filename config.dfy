/**
 * `pkg/config/config.go`: validation of the plugin configuration and the
 * agent that loads it and pushes it into the plugin. Reading the file and
 * unmarshalling YAML are not modelled: their results are given.
 */
module Config {
  import opened Wrappers
  import Regex
  import Rules
  import Plugin

  datatype NeedsRetitle = NeedsRetitle(regexp: string, errorMessage: string)

  datatype Configuration = Configuration(needsRetitle: NeedsRetitle)

  const EmptyRegexpError := "needs_pr_rename.regexp can not be empty"

  function CompileError(regexp: string, cause: Error): Error {
    "error compiling regular expression " + regexp + ": " + cause
  }

  /** `Configuration.Validate`: the pattern must be non-empty and must compile. */
  function Validate(engine: Regex.Engine, c: Configuration): (err: Option<Error>)
    ensures err.None? <==> |c.needsRetitle.regexp| > 0 && Regex.Compile(engine, c.needsRetitle.regexp).Success?
    ensures |c.needsRetitle.regexp| == 0 ==> err == Some(EmptyRegexpError)
    ensures |c.needsRetitle.regexp| > 0 && err.Some? ==>
      err.value == CompileError(c.needsRetitle.regexp, engine.compileError(c.needsRetitle.regexp).value)
  {
    var re := c.needsRetitle.regexp;
    if |re| == 0 then Some(EmptyRegexpError)
    else
      match Regex.Compile(engine, re)
      case Failure(cause) => Some(CompileError(re, cause))
      case Success(_) => None
  }

  /**
   * What `Load` makes of the file: the read and unmarshal results, then
   * validation; only a valid configuration gets through.
   */
  function LoadOutcome(engine: Regex.Engine, read: Result<string>,
                       unmarshal: string -> Result<Configuration>): (r: Result<Configuration>)
    ensures r.Success? <==>
      read.Success? && unmarshal(read.value).Success? && Validate(engine, unmarshal(read.value).value).None?
    ensures r.Success? ==> r == unmarshal(read.value) && Regex.Compile(engine, r.value.needsRetitle.regexp).Success?
    ensures read.Failure? ==> r == Failure(read.error)
  {
    match read
    case Failure(e) => Failure(e)
    case Success(b) =>
      match unmarshal(b)
      case Failure(e) => Failure(e)
      case Success(np) =>
        match Validate(engine, np)
        case Some(e) => Failure(e)
        case None => Success(np)
  }

  /** The plugin configuration `Set` derives from a configuration whose pattern compiles. */
  function Derived(engine: Regex.Engine, pc: Configuration): Rules.PluginConfig
    requires Regex.Compile(engine, pc.needsRetitle.regexp).Success?
  {
    var r := Regex.Compile(engine, pc.needsRetitle.regexp).value;
    Rules.PluginConfig(Rules.EffectiveMessage(pc.needsRetitle.errorMessage, r), r)
  }

  /** `PluginConfigAgent`. */
  class PluginConfigAgent {
    var configuration: Option<Configuration>
    const plugin: Plugin.Plugin

    /**
     * Either nothing was loaded and the plugin has no configuration, or the
     * plugin runs the valid configuration that was loaded.
     */
    ghost predicate Consistent(engine: Regex.Engine)
      reads this, plugin
    {
      match configuration
      case None => plugin.c.None?
      case Some(pc) => Validate(engine, pc).None? && plugin.c == Some(Derived(engine, pc))
    }

    /** `NewPluginConfigAgent`. */
    constructor ()
      ensures configuration.None? && fresh(plugin) && plugin.c.None?
      ensures forall engine :: Consistent(engine)
    {
      configuration := None;
      plugin := new Plugin.Plugin();
    }

    method GetPlugin() returns (p: Plugin.Plugin)
      ensures p == plugin
    {
      p := plugin;
    }

    /** The synchronous first step of `Start`: one `Load`, whose error is returned. */
    method Start(engine: Regex.Engine, read: Result<string>, unmarshal: string -> Result<Configuration>)
      returns (err: Option<Error>)
      modifies this, plugin
      ensures var r := LoadOutcome(engine, read, unmarshal);
        (r.Failure? ==> err == Some(r.error) && configuration == old(configuration) && plugin.c == old(plugin.c)) &&
        (r.Success? ==> err.None? && configuration == Some(r.value) && plugin.c == Some(Derived(engine, r.value)) &&
                        Consistent(engine))
    {
      err := Load(engine, read, unmarshal);
    }

    /** `Load`: read, unmarshal, validate, and only then `Set`. */
    method Load(engine: Regex.Engine, read: Result<string>, unmarshal: string -> Result<Configuration>)
      returns (err: Option<Error>)
      modifies this, plugin
      ensures var r := LoadOutcome(engine, read, unmarshal);
        (r.Failure? ==> err == Some(r.error) && configuration == old(configuration) && plugin.c == old(plugin.c)) &&
        (r.Success? ==> err.None? && configuration == Some(r.value) && plugin.c == Some(Derived(engine, r.value)) &&
                        Consistent(engine))
    {
      if read.Failure? {
        return Some(read.error);
      }
      var np := unmarshal(read.value);
      if np.Failure? {
        return Some(np.error);
      }
      var invalid := Validate(engine, np.value);
      if invalid.Some? {
        return invalid;
      }
      Set(engine, np.value);
      err := None;
    }

    /**
     * `Set`. The compile error is discarded in the source; a pattern that does
     * not compile would leave a nil expression whose `String()` panics, so the
     * pattern must compile.
     */
    method Set(engine: Regex.Engine, pc: Configuration)
      requires Regex.Compile(engine, pc.needsRetitle.regexp).Success?
      modifies this, plugin
      ensures configuration == Some(pc) && plugin.c == Some(Derived(engine, pc))
    {
      configuration := Some(pc);
      var r := Regex.Compile(engine, pc.needsRetitle.regexp);
      plugin.SetConfig(pc.needsRetitle.errorMessage, r.value);
    }
  }
}
