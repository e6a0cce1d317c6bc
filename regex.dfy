/**
 * Go's `regexp` package as this program sees it. Which sources compile, the
 * compiler's error text, and what a compiled expression matches are not
 * modelled: they are supplied by an `Engine` value.
 */
module Regex {
  import opened Wrappers

  /**
   * `compileError(src)` is `None` when `regexp.Compile(src)` succeeds and the
   * error text otherwise; `search(src)(s)` is `MatchString` of the compiled
   * `src` on `s` (an unanchored search unless `src` anchors itself).
   */
  datatype Engine = Engine(compileError: string -> Option<Error>, search: string -> string -> bool)

  /** A compiled `*regexp.Regexp`: its source text and its matcher. */
  datatype Regexp = Regexp(source: string, matcher: string -> bool)

  /** `regexp.Compile(source)`. */
  function Compile(engine: Engine, source: string): (r: Result<Regexp>)
    ensures r.Success? <==> engine.compileError(source).None?
    ensures r.Failure? ==> r.error == engine.compileError(source).value
    ensures r.Success? ==> String(r.value) == source
  {
    match engine.compileError(source)
    case Some(e) => Failure(e)
    case None => Success(Regexp(source, engine.search(source)))
  }

  /** `re.MatchString(s)`. */
  function MatchString(re: Regexp, s: string): bool {
    re.matcher(s)
  }

  /** `re.String()`: the source text it was compiled from. */
  function String(re: Regexp): string {
    re.source
  }
}
