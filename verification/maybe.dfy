/** The optional-value container the engine leans on (the `data.maybe`
    collaborator): a value that may be absent. */
module Maybe {

  datatype Option<+T> = None | Some(value: T) {

    /** Applies `f` to a present value; an absent value stays absent. */
    function Map<U>(f: T -> U): (r: Option<U>)
      ensures r.Some? <==> Some?
      ensures r.Some? ==> r.value == f(value)
    {
      match this
      case None => None
      case Some(v) => Some(f(v))
    }
  }
}
