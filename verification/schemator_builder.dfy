/** Fluent assembly of an engine: path delimiter, error mask and filters. */
module Factories {
  import opened SchematorEngine

  /** The configuration calls that registering `filters` issues, one per entry, in order. */
  function AddFilterCalls<F, M>(filters: seq<(string, F)>): (calls: seq<ConfigCall<F, M>>)
    ensures |calls| == |filters|
    ensures forall k :: 0 <= k < |filters| ==> calls[k] == FilterAdded(filters[k].0, filters[k].1)
  {
    if filters == [] then []
    else [FilterAdded(filters[0].0, filters[0].1)] + AddFilterCalls(filters[1..])
  }

  /** Registering one more filter extends the call list by that one registration. */
  lemma AddFilterCallsSnoc<F, M>(filters: seq<(string, F)>, name: string, filter: F)
    ensures AddFilterCalls<F, M>(filters + [(name, filter)]) ==
              AddFilterCalls<F, M>(filters) + [FilterAdded(name, filter)]
  {
  }

  /**
   * Holds one engine and forwards configuration to it. Every `With*` method
   * and `Create` return the builder itself, so calls can be chained.
   */
  class SchematorBuilder<F, M> {
    var schemator: Schemator<F, M>

    /** A new builder starts with a fresh, unconfigured engine. */
    constructor()
      ensures fresh(schemator) && schemator.calls == []
    {
      schemator := new Schemator();
    }

    /** Replaces the held engine with a fresh one; the engine held before is left as it was. */
    method Create() returns (self: SchematorBuilder<F, M>)
      modifies this
      ensures self == this
      ensures fresh(schemator) && schemator.calls == []
      ensures old(schemator).calls == old(schemator.calls)
    {
      schemator := new Schemator();
      self := this;
    }

    /** Forwards the path delimiter to the held engine. */
    method WithPathDelimiter(pathDelimiter: string) returns (self: SchematorBuilder<F, M>)
      modifies schemator
      ensures self == this && schemator == old(schemator)
      ensures schemator.calls == old(schemator.calls) + [PathDelimiterSet(pathDelimiter)]
    {
      schemator.SetPathDelimiter(pathDelimiter);
      self := this;
    }

    /** Forwards the error mask to the held engine. */
    method WithErrorsLevelMask(errorsLevelMask: M) returns (self: SchematorBuilder<F, M>)
      modifies schemator
      ensures self == this && schemator == old(schemator)
      ensures schemator.calls == old(schemator.calls) + [ErrorsLevelMaskSet(errorsLevelMask)]
    {
      schemator.SetErrorsLevelMask(errorsLevelMask);
      self := this;
    }

    /** Registers every (name, filter) entry with the held engine, in iteration order. */
    method WithFilters(filters: seq<(string, F)>) returns (self: SchematorBuilder<F, M>)
      modifies schemator
      ensures self == this && schemator == old(schemator)
      ensures schemator.calls == old(schemator.calls) + AddFilterCalls(filters)
    {
      var i := 0;
      while i < |filters|
        invariant 0 <= i <= |filters|
        invariant schemator.calls == old(schemator.calls) + AddFilterCalls(filters[..i])
      {
        var (name, filter) := filters[i];
        AddFilterCallsSnoc<F, M>(filters[..i], name, filter);
        assert filters[..i + 1] == filters[..i] + [(name, filter)];
        schemator.AddFilter(name, filter);
        i := i + 1;
      }
      assert filters[..i] == filters;
      self := this;
    }

    /** The engine currently held. */
    method Get() returns (s: Schemator<F, M>)
      ensures s == schemator
    {
      s := schemator;
    }
  }

  /**
   * A chained configuration `create()->withPathDelimiter(d)->withErrorsLevelMask(m)
   * ->withFilters(fs)->get()` yields a fresh engine that received exactly those
   * calls, in that order, whatever the builder held before.
   */
  method ChainedConfiguration<F, M>(builder: SchematorBuilder<F, M>, d: string, m: M, fs: seq<(string, F)>)
    returns (s: Schemator<F, M>)
    modifies builder
    ensures fresh(s) && s == builder.schemator
    ensures s.calls == [PathDelimiterSet(d), ErrorsLevelMaskSet(m)] + AddFilterCalls(fs)
  {
    var b := builder.Create();
    b := b.WithPathDelimiter(d);
    b := b.WithErrorsLevelMask(m);
    b := b.WithFilters(fs);
    s := b.Get();
  }

  /**
   * The engine handed out by `get()` is shared, not copied: consecutive calls
   * return the same object, configuration forwarded afterwards reaches it, and
   * once `create()` swaps in a new engine it no longer changes.
   */
  method SharedEngine<F, M>(builder: SchematorBuilder<F, M>, d1: string, d2: string)
    returns (first: Schemator<F, M>, again: Schemator<F, M>, second: Schemator<F, M>)
    modifies builder, builder.schemator
    ensures first == old(builder.schemator) && again == first
    ensures first.calls == old(builder.schemator.calls) + [PathDelimiterSet(d1)]
    ensures fresh(second) && second != first
    ensures second.calls == [PathDelimiterSet(d2)]
  {
    var b := builder.WithPathDelimiter(d1);
    first := b.Get();
    again := b.Get();
    b := b.Create();
    b := b.WithPathDelimiter(d2);
    second := b.Get();
  }
}
