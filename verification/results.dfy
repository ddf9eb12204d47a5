/** Failure-carrying results shared by the policies, the adapters and the router.
    The Python code raises exceptions; here each raise is an `Err` value. */
module Results {

  datatype Option<+T> = None | Some(value: T)

  /** The two failures the routing core can raise. */
  datatype Error =
    | NoModelsAvailable   // a policy was handed an empty model list
    | MissingApiKey       // the OpenAI adapter ran without OPENAI_API_KEY

  datatype Result<+T> = Ok(value: T) | Err(error: Error) {
    predicate IsFailure() { Err? }

    function PropagateFailure<U>(): Result<U>
      requires Err?
    {
      Err(error)
    }

    function Extract(): T
      requires Ok?
    {
      value
    }
  }
}
