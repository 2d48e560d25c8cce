/** The applicative helpers of src/fn.js, on results. */
module Fn {
  import opened Types

  /** `flowRight(left, right)`: sequences two results and keeps the right
      value; reasons of both sides accumulate, left first. */
  function FlowRight<A, B>(left: Result<A>, right: Result<B>): (r: Result<B>)
    ensures r.Success? <==> left.Success? && right.Success?
    ensures r.Success? ==> r.value == right.value
    ensures FailuresOf(r) == FailuresOf(left) + FailuresOf(right)
  {
    ApResult(ApResult(Success((_: A) => (b: B) => b), left), right)
  }

  /** `flowLeft(left, right)`: sequences two results and keeps the left
      value; reasons of both sides accumulate, left first. */
  function FlowLeft<A, B>(left: Result<A>, right: Result<B>): (r: Result<A>)
    ensures r.Success? <==> left.Success? && right.Success?
    ensures r.Success? ==> r.value == left.value
    ensures FailuresOf(r) == FailuresOf(left) + FailuresOf(right)
  {
    ApResult(ApResult(Success((a: A) => (_: B) => a), left), right)
  }

  /** `asField(field, value)`: a one-field object. */
  function AsField<T>(field: string, value: T): (m: map<string, T>)
    ensures m.Keys == {field}
    ensures m[field] == value
  {
    map[field := value]
  }

  /** `Processor#andThen` is `flowRight` taken pointwise. */
  lemma AndThenIsFlowRight<A, B>(p: Processor<A>, q: Processor<B>, c: Context)
    ensures AndThen(p, q).run(c) == FlowRight(p.run(c), q.run(c))
  {
    var x := AndThen(p, q).run(c);
    var y := FlowRight(p.run(c), q.run(c));
    if x.Failure? {
      assert x.reasons == FailuresOf(x) == FailuresOf(y) == y.reasons;
    }
  }

  /** `Processor#onlyIf` is `flowLeft` taken pointwise. */
  lemma OnlyIfIsFlowLeft<A, B>(p: Processor<A>, q: Processor<B>, c: Context)
    ensures OnlyIf(p, q).run(c) == FlowLeft(p.run(c), q.run(c))
  {
    var x := OnlyIf(p, q).run(c);
    var y := FlowLeft(p.run(c), q.run(c));
    if x.Failure? {
      assert x.reasons == FailuresOf(x) == FailuresOf(y) == y.reasons;
    }
  }
}
