/**
 * The manager's pipeline store (`PipelineServiceImpl`): pipelines by name, with create,
 * update, delete, lookup and a listing sorted by name.
 */
module ManagerPipelines {
  import opened Common
  import opened Ordering
  import opened Definitions

  /** The names of a list of pipelines, in list order. */
  function Names(ps: seq<Pipeline>): (r: seq<string>)
    ensures |r| == |ps| && forall i :: 0 <= i < |ps| ==> r[i] == ps[i].name
  {
    seq(|ps|, i requires 0 <= i < |ps| => ps[i].name)
  }

  /** Every pipeline is stored under its own name. */
  predicate KeyedByName(m: map<string, Pipeline>)
  {
    forall k :: k in m ==> m[k].name == k
  }

  /** A listing of `m`: every stored pipeline, sorted ascending by name. */
  predicate IsListing(m: map<string, Pipeline>, ps: seq<Pipeline>)
  {
    |ps| == |m| && (forall i :: 0 <= i < |ps| ==> ps[i] in m.Values) && (forall k :: k in m ==> m[k] in ps) &&
    Ascending(Names(ps))
  }

  /** There is only one listing of a store: sorting by the (unique) names leaves no choice. */
  lemma ListingUnique(m: map<string, Pipeline>, ps: seq<Pipeline>, qs: seq<Pipeline>)
    requires KeyedByName(m)
    requires IsListing(m, ps) && IsListing(m, qs)
    ensures ps == qs
  {
    forall y ensures y in Names(ps) <==> y in Names(qs) {
      if y in Names(ps) {
        var i :| 0 <= i < |ps| && Names(ps)[i] == y;
        assert ps[i] in m.Values;
        assert y in m;
        assert m[y] in qs;
        var j :| 0 <= j < |qs| && qs[j] == m[y];
        assert Names(qs)[j] == y;
      }
      if y in Names(qs) {
        var i :| 0 <= i < |qs| && Names(qs)[i] == y;
        assert qs[i] in m.Values;
        assert y in m;
        assert m[y] in ps;
        var j :| 0 <= j < |ps| && ps[j] == m[y];
        assert Names(ps)[j] == y;
      }
    }
    AscendingUnique(Names(ps), Names(qs));
    forall i | 0 <= i < |ps| ensures ps[i] == qs[i] {
      assert ps[i] in m.Values && qs[i] in m.Values;
      assert Names(ps)[i] == Names(qs)[i];
    }
  }

  class PipelineServiceImpl {
    var pipelines: map<string, Pipeline>

    ghost predicate Valid()
      reads this
    {
      KeyedByName(pipelines)
    }

    constructor ()
      ensures Valid() && pipelines == map[]
    {
      pipelines := map[];
    }

    /** `create(pipeline)`: store under the pipeline's name, replacing any earlier entry. */
    method Create(pipeline: Pipeline)
      requires Valid()
      modifies this
      ensures Valid()
      ensures pipelines == old(pipelines)[pipeline.name := pipeline]
    {
      pipelines := pipelines[pipeline.name := pipeline];
    }

    /** `getPipeline(name)`: empty exactly when no entry has that name. */
    function GetPipeline(name: string): (r: Option<Pipeline>)
      reads this
      ensures r.None? <==> name !in pipelines
      ensures r.Some? ==> r.value == pipelines[name]
    {
      if name in pipelines then Some(pipelines[name]) else None
    }

    /** `delete(name)`: drop that name only; an unknown name changes nothing. */
    method Delete(name: string)
      requires Valid()
      modifies this
      ensures Valid()
      ensures pipelines == old(pipelines) - {name}
    {
      pipelines := pipelines - {name};
    }

    /** `updatePipeline(pipeline)`: the same put as `create`. */
    method UpdatePipeline(pipeline: Pipeline)
      requires Valid()
      modifies this
      ensures Valid()
      ensures pipelines == old(pipelines)[pipeline.name := pipeline]
    {
      pipelines := pipelines[pipeline.name := pipeline];
    }

    /** `pipelines()`: every stored pipeline exactly once, sorted ascending by name. */
    method Pipelines() returns (ps: seq<Pipeline>)
      requires Valid()
      ensures IsListing(pipelines, ps)
    {
      var names := SortedNames(pipelines.Keys);
      ps := ValuesAt(pipelines, names);
      assert |pipelines.Keys| == |pipelines|;
      assert Names(ps) == names;
      forall k | k in pipelines ensures pipelines[k] in ps {
        var i :| 0 <= i < |names| && names[i] == k;
        assert ps[i] == pipelines[k];
      }
    }
  }
}
