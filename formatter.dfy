/**
 * The formatter registry (internal/output/formatter.go): formatters kept
 * by the name each reports for itself.
 */
module Output {
  import opened Wrappers

  /**
   * A report formatter: the text formatter with its template path, or
   * another implementation known only by its name and an identity.
   */
  datatype Formatter =
    | TextFormatter(templatePath: string)
    | OtherFormatter(name: string, id: nat)

  /** `GetName`. */
  function FormatterName(f: Formatter): (n: string)
    ensures f.TextFormatter? ==> n == "text"
  {
    match f
    case TextFormatter(_) => "text"
    case OtherFormatter(name, _) => name
  }

  class FormatterRegistry {
    var formatters: map<string, Formatter>

    /** Every formatter is kept under its own name. */
    ghost predicate Valid()
      reads this
    {
      forall n :: n in formatters ==> FormatterName(formatters[n]) == n
    }

    /** `NewFormatterRegistry`. */
    constructor NewFormatterRegistry()
      ensures formatters == map[] && Valid()
    {
      formatters := map[];
    }

    /** `RegisterFormatter`: replaces whatever was registered under the formatter's name. */
    method RegisterFormatter(formatter: Formatter)
      requires Valid()
      modifies this`formatters
      ensures Valid()
      ensures formatters.Keys == old(formatters.Keys) + {FormatterName(formatter)}
      ensures formatters[FormatterName(formatter)] == formatter
      ensures forall n :: n in old(formatters) && n != FormatterName(formatter) ==> formatters[n] == old(formatters[n])
    {
      formatters := formatters[FormatterName(formatter) := formatter];
    }

    /** `GetFormatter`: the formatter registered under `name`, if any. */
    function GetFormatter(name: string): (r: Option<Formatter>)
      reads this
      requires Valid()
      ensures r.Some? <==> name in formatters
      ensures r.Some? ==> r.value == formatters[name] && FormatterName(r.value) == name
    {
      if name in formatters then Some(formatters[name]) else None
    }
  }
}
