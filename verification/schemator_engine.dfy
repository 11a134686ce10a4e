/**
 * A stand-in for the single-item conversion engine, whose own logic (path
 * resolution, filters, error mask) is not part of this model. The batch
 * adapter sees the engine only through its `convert` operation; the builder
 * sees it only through its three setters, which this stand-in records.
 */
module SchematorEngine {
  import opened Wrappers
  import opened Values
  import opened Exceptions

  /** The engine's `convert(source, schema)`: one item in, its conversion or an error out. */
  type Converter = (Value, Value) -> Result<Value, SchematorError>

  /** A configuration call the engine received; `F` is the filter type, `M` the error mask type. */
  datatype ConfigCall<F, M> =
    | PathDelimiterSet(delimiter: string)
    | ErrorsLevelMaskSet(mask: M)
    | FilterAdded(name: string, filter: F)

  /** An engine instance, observed through the configuration calls made on it, oldest first. */
  class Schemator<F, M> {
    var calls: seq<ConfigCall<F, M>>

    constructor()
      ensures calls == []
    {
      calls := [];
    }

    method SetPathDelimiter(delimiter: string)
      modifies this
      ensures calls == old(calls) + [PathDelimiterSet(delimiter)]
    {
      calls := calls + [PathDelimiterSet(delimiter)];
    }

    method SetErrorsLevelMask(mask: M)
      modifies this
      ensures calls == old(calls) + [ErrorsLevelMaskSet(mask)]
    {
      calls := calls + [ErrorsLevelMaskSet(mask)];
    }

    method AddFilter(name: string, filter: F)
      modifies this
      ensures calls == old(calls) + [FilterAdded(name, filter)]
    {
      calls := calls + [FilterAdded(name, filter)];
    }
  }
}
