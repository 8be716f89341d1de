/** `RadioModule`: a model tagged with the slot it occupies, main or
    expansion. Generic over the model type, as in the source. */
module RadioModules {

  datatype RadioModule<M> = Main(model: M) | Expansion(model: M) {

    /** `model()` returns the payload of either variant. */
    function Model(): (m: M)
      ensures this == Main(m) || this == Expansion(m)
    {
      match this
      case Main(m) => m
      case Expansion(m) => m
    }

    function IsMain(): (b: bool)
      ensures b <==> this == Main(Model())
    {
      match this
      case Main(_) => true
      case Expansion(_) => false
    }

    /** `is_expansion` is the negation of `is_main`. */
    function IsExpansion(): (b: bool)
      ensures b <==> !IsMain()
      ensures b <==> this == Expansion(Model())
    {
      !IsMain()
    }
  }

  /** `RadioModule::default()` is the main slot holding the model type's
      default. */
  function Default<M>(defaultModel: M): (r: RadioModule<M>)
    ensures r.IsMain() && r.Model() == defaultModel
  {
    Main(defaultModel)
  }
}
