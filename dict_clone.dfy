/** The shallow dict copy both config flow managers use for user input. */
module DictClone {
  import opened Wrappers
  import opened PyValues

  /**
    `clone_items(user_input)` (and `_clone_items`): a new dict with every key
    of the input bound to the same value; None gives an empty dict.
   */
  method CloneItems(userInput: Option<map<string, Value>>) returns (clone: map<string, Value>)
    ensures userInput.None? ==> clone == map[]
    ensures userInput.Some? ==> clone.Keys == userInput.value.Keys
    ensures userInput.Some? ==> forall k | k in clone :: clone[k] == userInput.value[k]
  {
    clone := map[];
    if userInput.None? {
      return;
    }
    var input := userInput.value;
    var rest := input.Keys;
    while rest != {}
      invariant rest <= input.Keys
      invariant clone.Keys == input.Keys - rest
      invariant forall k | k in clone :: clone[k] == input[k]
      decreases rest
    {
      var key :| key in rest;
      clone := clone[key := input[key]];
      rest := rest - {key};
    }
  }

  /** A clone with the input's keys and values is the input itself, as a value. */
  lemma CloneIsCopy(input: map<string, Value>, clone: map<string, Value>)
    requires clone.Keys == input.Keys && forall k | k in clone :: clone[k] == input[k]
    ensures clone == input
  {
  }
}
