/**
 * The error taxonomy of the conversion engine: six numbered categories, the
 * structured context each error carries, the filter-existence guard and the
 * named constructors for the other five categories.
 */
module Exceptions {
  import opened Wrappers
  import opened Values

  const FILTER_NOT_FOUND: int := 1
  const FILTER_ERROR: int := 2
  const CANNOT_GET_VALUE: int := 3
  const UNSUPPORTED_SOURCE_TYPE: int := 4
  const UNSUPPORTED_KEY_TYPE: int := 5
  const UNSUPPORTED_FILTER_CONFIG_TYPE: int := 6

  /** Any throwable that can be chained as the cause of an error. */
  datatype Throwable = Throwable(className: string, message: string)

  /** One variant per error category, holding the arguments its constructor received. */
  datatype SchematorError =
    | FilterNotFound(filterName: string)
    | FilterError(filterName: string, config: Value, source: Value, cause: Throwable)
    | CannotGetValue(source: Value, keyPath: string, previous: Option<Throwable>)
    | UnsupportedSourceType(source: Value, key: Value, previous: Option<Throwable>)
    | UnsupportedKeyType(source: Value, key: Value, previous: Option<Throwable>)
    | UnsupportedFilterConfigType(filterConfig: Value, previous: Option<Throwable>)

  /** The structured context of an error: an ordered list of named entries. */
  type ContextData = seq<(string, Value)>

  /** The entry names of a context, in order. */
  function KeysOf(ctx: ContextData): seq<string>
  {
    seq(|ctx|, i requires 0 <= i < |ctx| => ctx[i].0)
  }

  /** Reference table: the context entry names each error code carries, in order. */
  function ContextKeysFor(code: int): seq<string>
  {
    if code == FILTER_NOT_FOUND then ["filter_name"]
    else if code == FILTER_ERROR then ["error", "filter_name", "config", "source"]
    else if code == CANNOT_GET_VALUE then ["key", "source"]
    else if code == UNSUPPORTED_SOURCE_TYPE then ["key", "source", "source_type"]
    else if code == UNSUPPORTED_KEY_TYPE then ["key", "source", "key_type"]
    else if code == UNSUPPORTED_FILTER_CONFIG_TYPE then ["filter_config", "filter_config_type"]
    else []
  }

  /** The six category codes are 1 through 6, in declaration order, hence pairwise distinct. */
  lemma CategoryCodes()
    ensures [FILTER_NOT_FOUND, FILTER_ERROR, CANNOT_GET_VALUE, UNSUPPORTED_SOURCE_TYPE,
             UNSUPPORTED_KEY_TYPE, UNSUPPORTED_FILTER_CONFIG_TYPE] == [1, 2, 3, 4, 5, 6]
  {
  }

  /** The numeric code of an error; it identifies the error's category. */
  function Code(e: SchematorError): (c: int)
    ensures 1 <= c <= 6
    ensures c == FILTER_NOT_FOUND <==> e.FilterNotFound?
    ensures c == FILTER_ERROR <==> e.FilterError?
    ensures c == CANNOT_GET_VALUE <==> e.CannotGetValue?
    ensures c == UNSUPPORTED_SOURCE_TYPE <==> e.UnsupportedSourceType?
    ensures c == UNSUPPORTED_KEY_TYPE <==> e.UnsupportedKeyType?
    ensures c == UNSUPPORTED_FILTER_CONFIG_TYPE <==> e.UnsupportedFilterConfigType?
  {
    match e
    case FilterNotFound(_) => FILTER_NOT_FOUND
    case FilterError(_, _, _, _) => FILTER_ERROR
    case CannotGetValue(_, _, _) => CANNOT_GET_VALUE
    case UnsupportedSourceType(_, _, _) => UNSUPPORTED_SOURCE_TYPE
    case UnsupportedKeyType(_, _, _) => UNSUPPORTED_KEY_TYPE
    case UnsupportedFilterConfigType(_, _) => UNSUPPORTED_FILTER_CONFIG_TYPE
  }

  /** The chained cause of an error, if any. */
  function Previous(e: SchematorError): (p: Option<Throwable>)
    ensures e.FilterNotFound? ==> p == None
    ensures e.FilterError? ==> p.Some?
  {
    match e
    case FilterNotFound(_) => None
    case FilterError(_, _, _, cause) => Some(cause)
    case CannotGetValue(_, _, previous) => previous
    case UnsupportedSourceType(_, _, previous) => previous
    case UnsupportedKeyType(_, _, previous) => previous
    case UnsupportedFilterConfigType(_, previous) => previous
  }

  /** The structured context an error carries. */
  function Context(e: SchematorError): (ctx: ContextData)
    ensures KeysOf(ctx) == ContextKeysFor(Code(e))
    ensures forall i, j :: 0 <= i < j < |ctx| ==> ctx[i].0 != ctx[j].0
  {
    match e
    case FilterNotFound(filterName) =>
      [("filter_name", Str(filterName))]
    case FilterError(filterName, config, source, cause) =>
      [("error", Str(cause.message)), ("filter_name", Str(filterName)),
       ("config", config), ("source", source)]
    case CannotGetValue(source, keyPath, _) =>
      [("key", Str(keyPath)), ("source", source)]
    case UnsupportedSourceType(source, key, _) =>
      [("key", key), ("source", source), ("source_type", Str(TypeName(source)))]
    case UnsupportedKeyType(source, key, _) =>
      [("key", key), ("source", source), ("key_type", Str(TypeName(key)))]
    case UnsupportedFilterConfigType(filterConfig, _) =>
      [("filter_config", filterConfig), ("filter_config_type", Str(TypeName(filterConfig)))]
  }

  /** PHP `isset($filterMap[$filterName])`: the key is present and its value is not null. */
  predicate IsSet<F>(filterMap: map<string, Option<F>>, filterName: string)
  {
    filterName in filterMap && filterMap[filterName].Some?
  }

  /** Passes when the filter is registered, fails with FILTER_NOT_FOUND otherwise. */
  function EnsureFilterExists<F>(filterMap: map<string, Option<F>>, filterName: string): (r: Outcome<SchematorError>)
    ensures r.Pass? <==> filterName in filterMap && filterMap[filterName] != None
    ensures r.Fail? ==> Code(r.error) == FILTER_NOT_FOUND
    ensures r.Fail? ==> Previous(r.error) == None
    ensures r.Fail? ==> Context(r.error) == [("filter_name", Str(filterName))]
  {
    if !IsSet(filterMap, filterName) then Fail(FilterNotFound(filterName)) else Pass
  }

  /** The error for a filter whose own body threw `previous`. */
  function CreateAsFilterError(filterName: string, filterConfig: Value, source: Value, previous: Throwable): (e: SchematorError)
    ensures Code(e) == FILTER_ERROR
    ensures Previous(e) == Some(previous)
    ensures Context(e) == [("error", Str(previous.message)), ("filter_name", Str(filterName)),
                           ("config", filterConfig), ("source", source)]
  {
    FilterError(filterName, filterConfig, source, previous)
  }

  /** The error for a value that cannot be read by `key`. */
  function CreateAsCannotGetValue(source: Value, key: string, previous: Option<Throwable> := None): (e: SchematorError)
    ensures Code(e) == CANNOT_GET_VALUE
    ensures Previous(e) == previous
    ensures Context(e) == [("key", Str(key)), ("source", source)]
  {
    CannotGetValue(source, key, previous)
  }

  /** The error for a source whose type cannot be navigated. */
  function CreateAsUnsupportedSourceType(source: Value, key: Value, previous: Option<Throwable> := None): (e: SchematorError)
    ensures Code(e) == UNSUPPORTED_SOURCE_TYPE
    ensures Previous(e) == previous
    ensures Context(e) == [("key", key), ("source", source), ("source_type", Str(TypeName(source)))]
  {
    UnsupportedSourceType(source, key, previous)
  }

  /** The error for a path key whose type is not supported. */
  function CreateAsUnsupportedKeyType(source: Value, key: Value, previous: Option<Throwable> := None): (e: SchematorError)
    ensures Code(e) == UNSUPPORTED_KEY_TYPE
    ensures Previous(e) == previous
    ensures Context(e) == [("key", key), ("source", source), ("key_type", Str(TypeName(key)))]
  {
    UnsupportedKeyType(source, key, previous)
  }

  /** The error for a filter config of an unsupported shape. */
  function CreateAsUnsupportedFilterConfigType(filterConfig: Value, previous: Option<Throwable> := None): (e: SchematorError)
    ensures Code(e) == UNSUPPORTED_FILTER_CONFIG_TYPE
    ensures Previous(e) == previous
    ensures Context(e) == [("filter_config", filterConfig), ("filter_config_type", Str(TypeName(filterConfig)))]
  {
    UnsupportedFilterConfigType(filterConfig, previous)
  }
}
