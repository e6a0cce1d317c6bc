/** `pkg/types/types.go`: a second configuration type with the same validation. */
module Types {
  import opened Wrappers
  import Regex
  import Config

  datatype NeedsRetitle = NeedsRetitle(regexp: string, errorMessage: string, requireEnableAsNotExternal: bool)

  datatype Configuration = Configuration(needsRetitle: NeedsRetitle)

  /** `Configuration.Validate`. */
  function Validate(engine: Regex.Engine, c: Configuration): (err: Option<Error>)
    ensures err.None? <==> |c.needsRetitle.regexp| > 0 && Regex.Compile(engine, c.needsRetitle.regexp).Success?
    ensures |c.needsRetitle.regexp| == 0 ==> err == Some(Config.EmptyRegexpError)
  {
    var re := c.needsRetitle.regexp;
    if |re| == 0 then Some(Config.EmptyRegexpError)
    else
      match Regex.Compile(engine, re)
      case Failure(cause) => Some(Config.CompileError(re, cause))
      case Success(_) => None
  }

  /** Only the pattern matters: the message and the flag do not. */
  lemma ValidateReadsOnlyRegexp(engine: Regex.Engine, c: Configuration, d: Configuration)
    requires c.needsRetitle.regexp == d.needsRetitle.regexp
    ensures Validate(engine, c) == Validate(engine, d)
  {
  }

  /** It agrees, error text included, with `config.Configuration.Validate` on the same pattern. */
  lemma ValidateAgreesWithConfig(engine: Regex.Engine, c: Configuration, d: Config.Configuration)
    requires c.needsRetitle.regexp == d.needsRetitle.regexp
    ensures Validate(engine, c) == Config.Validate(engine, d)
  {
  }
}
