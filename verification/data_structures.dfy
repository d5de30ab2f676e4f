/**
 * The fact records the extractor produces and the renderer consumes.
 * Python dataclass defaults become the `New...` constants.
 */
module DataStructures {
  import opened Wrappers

  /** The type name written when no type is known. */
  const Placeholder := "TYPE"

  /** Python truthiness of an `Optional[str]`: present and not the empty string. */
  predicate Truthy(o: Option<string>) {
    o.Some? && o.value != ""
  }

  datatype ParamDetails = ParamDetails(name: string, typeName: string, default: Option<string>)

  /** `ParamDetails(name=name)`: placeholder type, no default. */
  function NewParam(name: string): ParamDetails {
    ParamDetails(name, Placeholder, None)
  }

  datatype ReturnDetails = ReturnDetails(typeName: string, expression: string)

  /** `ReturnDetails()`: placeholder type, empty expression. */
  const NewReturn := ReturnDetails(Placeholder, "")

  datatype FunctionDetails = FunctionDetails(
    params: seq<ParamDetails>,
    args: Option<string>,
    kwargs: Option<string>,
    returnValues: seq<ReturnDetails>,
    yieldValues: seq<ReturnDetails>,
    raises: seq<string>,
    annotation: Option<string>)
  {
    /** `has_parameters`: ordinary parameters, or a `*args` or `**kwargs` name. */
    predicate HasParameters() {
      params != [] || Truthy(args) || Truthy(kwargs)
    }
  }

  /** `FunctionDetails()`: every list empty, no star names, no annotation. */
  const NewFunction := FunctionDetails([], None, None, [], [], [], None)

  datatype AttrDetails = AttrDetails(name: string, code: string, typeName: string)

  datatype ClassDetails = ClassDetails(attrs: seq<AttrDetails>)

  datatype ModuleDetails = ModuleDetails(attrs: seq<AttrDetails>)

  const NewClass := ClassDetails([])

  const NewModule := ModuleDetails([])

  /** `IngestedDetails`: exactly one of the three kinds of facts. */
  datatype IngestedDetails =
    | FunctionFacts(fn: FunctionDetails)
    | ClassFacts(cls: ClassDetails)
    | ModuleFacts(mod: ModuleDetails)

  /** A fresh `FunctionDetails` has nothing to document. */
  lemma FreshFunctionIsEmpty()
    ensures !NewFunction.HasParameters()
    ensures NewFunction.returnValues == [] && NewFunction.yieldValues == [] && NewFunction.raises == []
    ensures !Truthy(NewFunction.annotation)
  {
  }
}
