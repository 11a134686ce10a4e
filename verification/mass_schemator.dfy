/** The batch adapter: one engine, one schema, applied to every item of a source collection. */
module Components {
  import opened Wrappers
  import opened Values
  import opened Exceptions
  import opened SchematorEngine

  /**
   * What a generator over the source produces when drained: the results it
   * yielded, in order, and the error it threw on the next item, if any.
   * A generator that throws is finished, so nothing follows the error.
   */
  datatype Yielded = Yielded(items: seq<Value>, thrown: Option<SchematorError>)

  /** Draining a generator into a list: the whole list, or the error that stopped it. */
  function Drain(y: Yielded): Result<seq<Value>, SchematorError>
  {
    match y.thrown
    case Some(e) => Failure(e)
    case None => Success(y.items)
  }

  class MassSchemator {
    /** The engine fixed at construction. */
    const schemator: Converter

    constructor(schemator: Converter)
      ensures this.schemator == schemator
    {
      this.schemator := schemator;
    }

    /**
     * The lazy form: converts each item in source order with the same schema,
     * stopping at the first item whose conversion fails.
     */
    function Generate(source: seq<Value>, schema: Value): (g: Yielded)
      ensures |g.items| <= |source|
      ensures forall k :: 0 <= k < |g.items| ==> schemator(source[k], schema) == Success(g.items[k])
      ensures g.thrown.None? ==> |g.items| == |source|
      ensures g.thrown.Some? ==>
                |g.items| < |source| && schemator(source[|g.items|], schema) == Failure(g.thrown.value)
    {
      if source == [] then Yielded([], None)
      else
        match schemator(source[0], schema)
        case Failure(e) => Yielded([], Some(e))
        case Success(out) =>
          var rest := Generate(source[1..], schema);
          Yielded([out] + rest.items, rest.thrown)
    }

    /**
     * Generating over a concatenation runs the first part, then, unless it
     * threw, the second part: the generator is single-pass and stateless.
     */
    lemma GenerateAppend(s1: seq<Value>, s2: seq<Value>, schema: Value)
      ensures Generate(s1 + s2, schema) ==
                if Generate(s1, schema).thrown.Some? then Generate(s1, schema)
                else Yielded(Generate(s1, schema).items + Generate(s2, schema).items,
                             Generate(s2, schema).thrown)
    {
      var s, g1, g2 := s1 + s2, Generate(s1, schema), Generate(s2, schema);
      if g1.thrown.Some? {
        assert s[|g1.items|] == s1[|g1.items|];
        GenerateUnique(s, schema, g1);
      } else {
        var y := Yielded(g1.items + g2.items, g2.thrown);
        forall k | 0 <= k < |y.items|
          ensures schemator(s[k], schema) == Success(y.items[k])
        {
          if |s1| <= k {
            assert s[k] == s2[k - |s1|];
          }
        }
        if g2.thrown.Some? {
          assert s[|y.items|] == s2[|g2.items|];
        }
        GenerateUnique(s, schema, y);
      }
    }

    /**
     * Generate's contract determines its result: any drained generator run
     * that yields successful conversions in order and stops exactly at a
     * failing item (or at the end) is the one Generate describes.
     */
    lemma GenerateUnique(source: seq<Value>, schema: Value, y: Yielded)
      requires |y.items| <= |source|
      requires forall k :: 0 <= k < |y.items| ==> schemator(source[k], schema) == Success(y.items[k])
      requires y.thrown.None? ==> |y.items| == |source|
      requires y.thrown.Some? ==>
                 |y.items| < |source| && schemator(source[|y.items|], schema) == Failure(y.thrown.value)
      ensures y == Generate(source, schema)
    {
    }

    /**
     * Collecting the lazy form yields `outs` exactly when every item converts
     * successfully and `outs` lists the conversions in source order.
     */
    lemma CollectIsItemwise(source: seq<Value>, schema: Value, outs: seq<Value>)
      ensures Drain(Generate(source, schema)) == Success(outs) <==>
                |outs| == |source| &&
                forall k :: 0 <= k < |source| ==> schemator(source[k], schema) == Success(outs[k])
    {
      var g := Generate(source, schema);
      if |outs| == |source| && forall k :: 0 <= k < |source| ==> schemator(source[k], schema) == Success(outs[k]) {
        assert g.items == outs;
      }
    }

    /**
     * All or nothing: collecting the lazy form succeeds exactly when every item
     * converts, and then lists the conversions in order; otherwise it returns
     * no list, only the error of the first item that failed.
     */
    lemma DrainGenerate(source: seq<Value>, schema: Value)
      ensures var r := Drain(Generate(source, schema));
        && (r.Success? <==> forall k :: 0 <= k < |source| ==> schemator(source[k], schema).Success?)
        && (r.Success? ==>
              |r.value| == |source| &&
              forall k :: 0 <= k < |source| ==> schemator(source[k], schema) == Success(r.value[k]))
        && (r.Failure? ==>
              exists j :: 0 <= j < |source| && schemator(source[j], schema) == Failure(r.error) &&
                forall k :: 0 <= k < j ==> schemator(source[k], schema).Success?)
    {
    }

    /** The eager form: converts every item and collects the results, or propagates the first error. */
    method Convert(source: seq<Value>, schema: Value) returns (r: Result<seq<Value>, SchematorError>)
      ensures r == Drain(Generate(source, schema))
      ensures r.Success? ==>
                |r.value| == |source| &&
                forall k :: 0 <= k < |source| ==> schemator(source[k], schema) == Success(r.value[k])
    {
      var result: seq<Value> := [];
      var thrown: Option<SchematorError> := None;
      var i := 0;
      while i < |source| && thrown.None?
        invariant 0 <= i <= |source| && |result| == i
        invariant forall k :: 0 <= k < i ==> schemator(source[k], schema) == Success(result[k])
        invariant thrown.Some? ==> i < |source| && schemator(source[i], schema) == Failure(thrown.value)
        decreases |source| - i, if thrown.None? then 1 else 0
      {
        var out := schemator(source[i], schema);
        if out.Failure? {
          thrown := Some(out.error);
        } else {
          result := result + [out.value];
          i := i + 1;
        }
      }
      r := Drain(Yielded(result, thrown));
      GenerateUnique(source, schema, Yielded(result, thrown));
    }
  }
}
