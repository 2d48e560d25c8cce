/** The library's entry point (index.js). */
module Sifted {
  import opened Maybe
  import opened Values
  import opened Types
  import opened Constraint

  /** `run(processor, value)`: the processor applied to the root context of
      the input. */
  function Run<T>(p: Processor<T>, v: Value): Result<T>
  {
    p.run(RootOf(v))
  }

  /** A run starts at the root, with no location, holding the input
      unless it is null or undefined: `identity` gives back exactly that,
      and `exists` succeeds exactly on a defined input. */
  lemma RunStartsAtRoot(v: Value)
    ensures PathList(RootOf(v)) == []
    ensures Run(Identity(), v) == Success(if v.Null? then None else Some(v))
    ensures Run(Exists(), v).Success? <==> !v.Null?
    ensures Run(Exists(), v).Failure? ==> Run(Exists(), v).reasons == [Reason(Root(None), NotDefined)]
  {
  }

  /** A processor asked at a path sees the input's projection there, at a
      one-step location. */
  lemma RunAsks<T>(p: Processor<T>, v: Value, path: Path)
    ensures Run(Asks(p, path), v) == p.run(Derive(RootOf(v), path))
    ensures PathList(Derive(RootOf(v), path)) == [path]
    ensures Derive(RootOf(v), path).value.Some? <==> !v.Null? && Project(v, path) != Null
  {
    PathListDerive(RootOf(v), path);
  }
}
