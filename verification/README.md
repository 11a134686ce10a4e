# schemator-php: error taxonomy, batch adapter and builder

A Dafny model of the code that surrounds the Schemator conversion engine of
schemator-php. The engine converts one source item against a schema. It resolves
delimited key paths, applies named filters and tolerates selected error categories
through a bitmask. This model covers three of the files around it:

- `SchematorException`. There are six numbered error categories, each carrying a
  structured context and an optional chained cause. A guard fails with
  FILTER_NOT_FOUND when a filter name is not set in the filter map, following PHP
  `isset`: a `null` entry counts as absent. Five named constructors build the other
  categories. Module `Exceptions` (schemator_exception.dfy) models this as the
  datatype `SchematorError`, with one variant per category. The accessors `Code`,
  `Previous` and `Context` give the code, the cause and the context entries, and
  `ContextKeysFor` tabulates the context entry names per code.
- `MassSchemator`. It holds one engine, given at construction, and converts every
  item of a source collection with the same schema. `generate` is the lazy form
  and `convert` the eager collect form. Module `Components` (mass_schemator.dfy)
  gives the engine's `convert` as a function value of type `Converter`, a snapshot
  taken at construction.
  `Generate` is a pure function that describes what the generator yields before
  the first failing item, and what it throws there. `Convert` is the collect loop.
- `SchematorBuilder`. It holds one engine reference, forwards the path delimiter,
  the error mask and the filters to it, replaces it with a fresh engine on
  `create()`, and returns itself from every configuring call. Module `Factories`
  (schemator_builder.dfy) models it as a class. The engine is the stand-in class
  `SchematorEngine.Schemator` (schemator_engine.dfy), which keeps a log of the
  configuration calls it receives, oldest first.

Module `Values` (values.dfy) gives PHP's dynamically typed values and
`gettype`. Module `Wrappers` (wrappers.dfy) gives `Option`, `Result` and `Outcome`.

The interface `MassSchematorInterface` declares the eager method `exec`
(src/Interfaces/MassSchematorInterface.php:30). `MassSchemator` declares that it
implements this interface (src/Components/MassSchemator.php:13) but defines no
`exec`. Its eager method is named `convert` (src/Components/MassSchemator.php:42).
A PHP method implements an interface method only when the names match, so the
class as written leaves `exec` abstract. PHP refuses to load such a class, so as
written it cannot be constructed. The model follows the class body and models its
`convert` as `Convert`.

## Model

| member | source | states |
|---|---|---|
| `Exceptions.CategoryCodes` | src/Exceptions/SchematorException.php:16-21 | The six codes are FILTER_NOT_FOUND = 1 through UNSUPPORTED_FILTER_CONFIG_TYPE = 6, in declaration order, so they are pairwise distinct |
| `Exceptions.Code` | src/Exceptions/SchematorException.php:16-21 | Every error's code lies in 1..6, and each code is carried exactly by the errors of its own category (an if-and-only-if per category) |
| `Exceptions.Previous` | src/Exceptions/SchematorException.php:29-150 | The chained cause: always absent for filter-not-found, always present for filter-error, otherwise the one the constructor was given |
| `Exceptions.Context` | src/Exceptions/SchematorException.php:29-150 | The context entry names are exactly the per-code table `ContextKeysFor(Code(e))`, in order, and no name occurs twice |
| `Values.TypeName` | src/Exceptions/SchematorException.php:97 | PHP `gettype`: "NULL", "array" and "object" are reported for exactly null, arrays and objects |
| `Exceptions.EnsureFilterExists` | src/Exceptions/SchematorException.php:29-41 | Passes if and only if the name is a key of the map with a non-null value; otherwise fails with code FILTER_NOT_FOUND, no cause, and context exactly `filter_name` = the queried name |
| `Exceptions.CreateAsFilterError` | src/Exceptions/SchematorException.php:51-66 | Code FILTER_ERROR; the given throwable is the cause; context is `error` = the cause's message, `filter_name`, `config`, `source`, in that order |
| `Exceptions.CreateAsCannotGetValue` | src/Exceptions/SchematorException.php:75-86 | Code CANNOT_GET_VALUE; the cause is the optional argument (none by default); context is `key`, `source` |
| `Exceptions.CreateAsUnsupportedSourceType` | src/Exceptions/SchematorException.php:95-108 | Code UNSUPPORTED_SOURCE_TYPE; optional cause; context is `key`, `source` and `source_type` = the gettype of the source |
| `Exceptions.CreateAsUnsupportedKeyType` | src/Exceptions/SchematorException.php:117-130 | Code UNSUPPORTED_KEY_TYPE; optional cause; context is `key`, `source` and `key_type` = the gettype of the key |
| `Exceptions.CreateAsUnsupportedFilterConfigType` | src/Exceptions/SchematorException.php:138-150 | Code UNSUPPORTED_FILTER_CONFIG_TYPE; optional cause; context holds only `filter_config` and `filter_config_type` = its gettype |
| `Components.MassSchemator.constructor` | src/Components/MassSchemator.php:24-27 | The batch adapter holds exactly the conversion it was given, as a snapshot of the engine (see "## Left out") |
| `Components.MassSchemator.Generate` | src/Components/MassSchemator.php:32-37 | Yields at most one result per item, in source order, each equal to the held engine's conversion of that item with the unchanged schema; it stops only at the end of the source or at the first item whose conversion fails, throwing that item's error |
| `Components.MassSchemator.GenerateAppend` | src/Components/MassSchemator.php:32-37 | Generating over `s1 + s2` is generating over `s1` and, unless that threw, continuing with `s2`: the generator is single-pass and keeps no state between items |
| `Components.MassSchemator.GenerateUnique` | src/Components/MassSchemator.php:32-37 | Generate's contract determines its result: any run that meets it equals Generate |
| `Components.MassSchemator.CollectIsItemwise` | src/Components/MassSchemator.php:42-52 | Collecting the lazy form gives a list `outs` if and only if `outs` has one entry per source item and each entry is that item's successful conversion |
| `Components.MassSchemator.DrainGenerate` | src/Components/MassSchemator.php:42-52 | All or nothing: collecting succeeds if and only if every item converts, and then has length n with entry i the conversion of item i; otherwise no list is returned, only the error of the first failing item |
| `Components.MassSchemator.Convert` | src/Components/MassSchemator.php:42-52 | The collect loop returns exactly the drained lazy form; on success it returns a list as long as the source whose entry i is the conversion of item i (an empty source gives an empty list) |
| `Factories.AddFilterCalls` | src/Factories/SchematorBuilder.php:59-65 | One `addFilter(name, filter)` call per entry, in iteration order; none for an empty collection |
| `Factories.AddFilterCallsSnoc` | src/Factories/SchematorBuilder.php:59-65 | Registering one more entry appends exactly its `addFilter` call |
| `Factories.SchematorBuilder.constructor` | src/Factories/SchematorBuilder.php:24-27 | A new builder holds a fresh engine that has received no configuration |
| `Factories.SchematorBuilder.Create` | src/Factories/SchematorBuilder.php:32-36 | Returns the builder itself; the held engine is replaced by a fresh, unconfigured one; the engine held before is not touched |
| `Factories.SchematorBuilder.WithPathDelimiter` | src/Factories/SchematorBuilder.php:41-45 | Returns the builder itself; the same engine is still held, and it received exactly one more call, setting the given delimiter |
| `Factories.SchematorBuilder.WithErrorsLevelMask` | src/Factories/SchematorBuilder.php:50-54 | Returns the builder itself; the same engine is still held, and it received exactly one more call, setting the given mask |
| `Factories.SchematorBuilder.WithFilters` | src/Factories/SchematorBuilder.php:59-65 | Returns the builder itself; the same engine is still held, and it received exactly `AddFilterCalls(filters)` appended to its earlier calls |
| `Factories.SchematorBuilder.Get` | src/Factories/SchematorBuilder.php:70-73 | Returns the held engine and changes nothing |
| `Factories.ChainedConfiguration` | src/Factories/SchematorBuilder.php:32-73 | A chain create, delimiter, mask, filters, get yields a fresh engine that received exactly those calls in that order, whatever was configured before |
| `Factories.SharedEngine` | src/Factories/SchematorBuilder.php:32-73 | Consecutive `get()` calls return the same engine; configuration forwarded later reaches an engine already handed out; after `create()` that engine no longer changes and a different, fresh one is held |

## Left out

- The conversion engine itself (path resolution, filter invocation, the error mask) is not part of this model. `SchematorEngine.Schemator` stands in for it and only records the setter calls it receives. The batch adapter takes the engine's `convert` as a function value.
- Components.MassSchemator.constructor: the adapter keeps a snapshot of the engine's conversion as a fixed function, not a reference to the shared, mutable engine object. In PHP, configuration sent to that engine after the adapter is built changes every later `generate` and `convert`. The model does not reflect that reconfiguration between batches, and two calls on the same adapter always agree.
- Engine state during a batch: `Converter` is one fixed function for the whole batch. Reconfiguring the engine from elsewhere while a generator is only partly consumed is not modelled.
- Generator mechanics: `generate` is modelled over a finite sequence. Infinite iterables, laziness in time and partial consumption by the caller are not captured. Only what a full drain observes is modelled: the yielded results and the error thrown.
- `BaseException` internals: the human-readable messages, message storage and data accessors are left out. Each error keeps only its code, cause and context.
- `Values.Value` lets an array list the same key twice, which a PHP array cannot do. No modelled operation reads array entries, so key uniqueness is not enforced.
- PHP floats and resources are not among the modelled `Value`s, so `gettype` results "double" and "resource" do not arise.
- PHP's cast of numeric-string array keys (such as "5") to integers is not modelled. The filter map is keyed by strings, and the same cast would apply both on registration and on lookup.
- `Factories.SchematorBuilder.WithFilters` takes the filters as a sequence of (name, filter) pairs in iteration order. PHP's coercion of integer array keys to the `string` name parameter is not modelled.
- `Factories.SchematorBuilder.constructor` assigns a fresh engine directly instead of calling `create()`. The resulting state is the same.
- The error mask is forwarded as an opaque value of type parameter `M`. The bitmap library behind it is not part of this model.
