/** The laws the Processor algebra of src/types.js obeys, and the split
    between accumulating (`Ap`) and short-circuiting (`Chain`) composition.
    Processors are compared by what they return on a context. */
module Laws {
  import opened Maybe
  import opened Values
  import opened Types

  /** Functor identity: mapping the identity changes nothing. */
  lemma MapIdentity<A>(p: Processor<A>, c: Context)
    ensures Map(p, (x: A) => x).run(c) == p.run(c)
  {
  }

  /** Functor composition: two maps are one map of the composition. */
  lemma MapComposition<A, B, C>(p: Processor<A>, f: A -> B, g: B -> C, c: Context)
    ensures Map(Map(p, f), g).run(c) == Map(p, (x: A) => g(f(x))).run(c)
  {
  }

  /** Applicative identity. */
  lemma ApIdentity<A>(p: Processor<A>, c: Context)
    ensures Ap(Of((x: A) => x), p).run(c) == p.run(c)
  {
  }

  /** Applicative homomorphism. */
  lemma ApHomomorphism<A, B>(f: A -> B, x: A, c: Context)
    ensures Ap(Of(f), Of(x)).run(c) == Of(f(x)).run(c)
  {
  }

  /** Applicative interchange. */
  lemma ApInterchange<A, B>(u: Processor<A -> B>, y: A, c: Context)
    ensures Ap(u, Of(y)).run(c) == Ap(Of((f: A -> B) => f(y)), u).run(c)
  {
  }

  /** Function composition, curried as `R.curryN(2, R.compose)`. */
  function Compose<A, B, C>(): (B -> C) -> ((A -> B) -> (A -> C))
  {
    (g: B -> C) => (f: A -> B) => (x: A) => g(f(x))
  }

  /** Applicative composition: reasons come out in the same order either
      way round. */
  lemma ApComposition<A, B, C>(u: Processor<B -> C>, v: Processor<A -> B>, w: Processor<A>, c: Context)
    ensures Ap(Ap(Ap(Of(Compose<A, B, C>()), u), v), w).run(c) == Ap(u, Ap(v, w)).run(c)
  {
    var lhs := Ap(Ap(Ap(Of(Compose<A, B, C>()), u), v), w).run(c);
    var rhs := Ap(u, Ap(v, w)).run(c);
    assert FailuresOf(lhs) == FailuresOf(u.run(c)) + FailuresOf(v.run(c)) + FailuresOf(w.run(c));
    assert FailuresOf(rhs) == FailuresOf(u.run(c)) + (FailuresOf(v.run(c)) + FailuresOf(w.run(c)));
  }

  /** Monad left identity. */
  lemma ChainLeftIdentity<A, B>(x: A, f: A -> Processor<B>, c: Context)
    ensures Chain(Of(x), f).run(c) == f(x).run(c)
  {
  }

  /** Monad right identity. */
  lemma ChainRightIdentity<A>(p: Processor<A>, c: Context)
    ensures Chain(p, (x: A) => Of(x)).run(c) == p.run(c)
  {
  }

  /** Monad associativity. */
  lemma ChainAssociativity<A, B, C>(p: Processor<A>, f: A -> Processor<B>, g: B -> Processor<C>, c: Context)
    ensures Chain(Chain(p, f), g).run(c) == Chain(p, (x: A) => Chain(f(x), g)).run(c)
  {
  }

  /** `Chain` never consults its continuation after a failure: any two
      continuations give the same failure, the first processor's. */
  lemma ChainShortCircuits<A, B>(p: Processor<A>, f: A -> Processor<B>, g: A -> Processor<B>, c: Context)
    requires p.run(c).Failure?
    ensures Chain(p, f).run(c) == Chain(p, g).run(c) == Failure(p.run(c).reasons)
  {
  }

  /** The design rule in one statement: when two independent checks both
      fail, applicative combination reports the reasons of both in order,
      while chaining reports only the first check's. */
  lemma AccumulateVersusShortCircuit<A, B>(p: Processor<A>, q: Processor<B>, c: Context)
    requires p.run(c).Failure? && q.run(c).Failure?
    ensures AndThen(p, q).run(c).reasons == p.run(c).reasons + q.run(c).reasons
    ensures Chain(p, (_: A) => q).run(c).reasons == p.run(c).reasons
    ensures |AndThen(p, q).run(c).reasons| > |Chain(p, (_: A) => q).run(c).reasons|
  {
  }

  /** `orElse` is associative: a first-success chain can be grouped either
      way. */
  lemma OrElseAssociative<T>(p: Processor<T>, q: Processor<T>, r: Processor<T>, c: Context)
    ensures OrElse(OrElse(p, q), r).run(c) == OrElse(p, OrElse(q, r)).run(c)
  {
  }

  /** `asks` composes: asking along `a` inside asking along `b` looks two
      steps down, `b` first. */
  lemma AsksComposes<T>(p: Processor<T>, a: Path, b: Path, c: Context)
    ensures Asks(Asks(p, a), b).run(c) == p.run(DeriveAll(c, [b, a]))
  {
    assert [b, a][1..] == [a];
    assert [a][1..] == [];
    assert DeriveAll(c, [b, a]) == DeriveAll(Derive(c, b), [a]) == Derive(Derive(c, b), a);
  }

  /** `identity.asks(path)` reads the projected value of the parent. */
  lemma IdentityAsks(p: Path, c: Context)
    ensures Asks(Identity(), p).run(c).Success?
    ensures Asks(Identity(), p).run(c).value.Some? <==> c.value.Some? && Project(c.value.value, p) != Null
    ensures Asks(Identity(), p).run(c).value.Some? ==> Asks(Identity(), p).run(c).value.value == Project(c.value.value, p)
  {
  }
}
