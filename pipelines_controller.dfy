/**
 * The manager's pipeline REST surface (`PipelinesManagementController`): transfer objects
 * are converted field by field to endpoint definitions and back, and each verb delegates
 * to the endpoint-definition store.
 */
module PipelinesController {
  import opened Common
  import opened ManagerEndpoints

  /**
   * The REST transfer object of a pipeline. Jackson leaves a field the request body does not
   * carry as null, so each field may be missing.
   */
  datatype PipelineTO = PipelineTO(name: Option<string>, chain: Option<seq<string>>, transportType: Option<string>)

  /**
   * `map(PipelineTO)`: a definition with the same name, transport and chain. Copying a null
   * chain into a new `ArrayList` throws a NullPointerException.
   */
  function ToDefinition(to: PipelineTO): (r: Result<EndpointDefinition>)
  {
    if to.chain.None? then Err("NullPointerException")
    else Ok(EndpointDefinition(to.name, to.transportType, to.chain.value))
  }

  /** `map(EndpointDefinition)`: a transfer object with the same name, transport and chain. */
  function ToTransfer(d: EndpointDefinition): (to: PipelineTO)
  {
    PipelineTO(d.name, Some(d.chain), d.transportType)
  }

  /**
   * The conversion to a definition fails exactly when the chain is missing; otherwise the two
   * conversions are inverse to each other, in both directions, and keep the name.
   */
  lemma ConversionRoundTrip(to: PipelineTO, d: EndpointDefinition)
    ensures ToDefinition(to).Err? <==> to.chain.None?
    ensures to.chain.Some? ==> ToTransfer(ToDefinition(to).value) == to && ToDefinition(to).value.name == to.name
    ensures ToDefinition(ToTransfer(d)) == Ok(d)
    ensures ToTransfer(d).name == d.name
  {
  }

  /** The listing of a sequence of definitions, one transfer object each, in order. */
  function Transfers(ds: seq<EndpointDefinition>): (tos: seq<PipelineTO>)
    ensures |tos| == |ds| && forall i :: 0 <= i < |ds| ==> ToDefinition(tos[i]) == Ok(ds[i])
  {
    if ds == [] then [] else Transfers(ds[..|ds| - 1]) + [ToTransfer(ds[|ds| - 1])]
  }

  class PipelinesManagementController {
    const endpointService: EndpointServiceImpl

    constructor (endpointService: EndpointServiceImpl)
      ensures this.endpointService == endpointService
    {
      this.endpointService := endpointService;
    }

    /**
     * PUT: `create` of the converted definition. A missing chain fails in the conversion and a
     * missing name fails in the store's put; either way nothing is stored.
     */
    method Create(pipeline: PipelineTO) returns (r: Result<()>)
      modifies endpointService
      ensures pipeline.chain.None? || pipeline.name.None? ==>
        r == Err("NullPointerException") && endpointService.definitions == old(endpointService.definitions)
      ensures pipeline.chain.Some? && pipeline.name.Some? ==>
        && r == Ok(())
        && endpointService.definitions == old(endpointService.definitions)[pipeline.name.value := ToDefinition(pipeline).value]
      ensures old(StoredUnderOwnName(endpointService.definitions)) ==> StoredUnderOwnName(endpointService.definitions)
    {
      var d := ToDefinition(pipeline);
      if d.Err? {
        return Err(d.error);
      }
      r := endpointService.Create(d.value);
    }

    /** POST: `updateDefinition` of the converted definition, with the same two failures. */
    method Update(pipeline: PipelineTO) returns (r: Result<()>)
      modifies endpointService
      ensures pipeline.chain.None? || pipeline.name.None? ==>
        r == Err("NullPointerException") && endpointService.definitions == old(endpointService.definitions)
      ensures pipeline.chain.Some? && pipeline.name.Some? ==>
        && r == Ok(())
        && endpointService.definitions == old(endpointService.definitions)[pipeline.name.value := ToDefinition(pipeline).value]
      ensures old(StoredUnderOwnName(endpointService.definitions)) ==> StoredUnderOwnName(endpointService.definitions)
    {
      var d := ToDefinition(pipeline);
      if d.Err? {
        return Err(d.error);
      }
      r := endpointService.UpdateDefinition(d.value);
    }

    /** DELETE `/{pipelineName}`: `delete` by name. */
    method Delete(pipelineName: string)
      modifies endpointService
      ensures endpointService.definitions == old(endpointService.definitions) - {pipelineName}
    {
      endpointService.Delete(pipelineName);
    }

    /** GET `/{pipelineName}`: looks the definition up and answers nothing. */
    method Get(pipelineName: string)
      ensures unchanged(endpointService)
    {
      var ignored := endpointService.GetDefinition(pipelineName);
    }

    /**
     * GET: one transfer object per stored definition, in the store's listing order
     * `names`, each converting back to the stored definition; with every definition stored
     * under its own name, each transfer object carries that name.
     */
    method List() returns (tos: seq<PipelineTO>, ghost names: seq<string>)
      ensures |names| == |endpointService.definitions| && Distinct(names)
      ensures forall k :: k in endpointService.definitions <==> k in names
      ensures |tos| == |names|
      ensures forall i :: 0 <= i < |tos| ==> ToDefinition(tos[i]) == Ok(endpointService.definitions[names[i]])
      ensures StoredUnderOwnName(endpointService.definitions) ==>
        forall i :: 0 <= i < |tos| ==> tos[i].name == Some(names[i]) && tos[i].chain.Some?
    {
      var ds;
      ds, names := endpointService.Definitions();
      tos := [];
      var i := 0;
      while i < |ds|
        invariant 0 <= i <= |ds|
        invariant tos == Transfers(ds[..i])
      {
        assert ds[..i + 1][..i] == ds[..i];
        tos := tos + [ToTransfer(ds[i])];
        i := i + 1;
      }
      assert ds[..i] == ds;
    }
  }
}
