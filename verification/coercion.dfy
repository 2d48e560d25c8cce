/** The coercion combinators of src/coercion.js: processors that convert
    the value at a context from one kind to another, and a first-success
    chain of them. */
module Coercions {
  import opened Maybe
  import opened Values
  import opened Types
  import ParseInt

  const InputUndefined := "input is undefined"
  const TypeMismatch := "input type mismatch"
  const NoneSucceeded := "No provided coercions succeeded"

  /** `mkResult(context, msg, opt)`: a present option is a success; an
      absent one is a single reason at the context. */
  function MkResult<T>(c: Context, msg: string, o: Option<T>): (r: Result<T>)
    ensures r.Success? <==> o.Some?
    ensures r.Success? ==> r.value == o.value
    ensures r.Failure? ==> r.reasons == [Reason(c, msg)]
  {
    match o
    case Some(v) => Success(v)
    case None => Failure([Reason(c, msg)])
  }

  /** `coercion(input, msg, convert)`: needs a value of kind `input`, then
      succeeds with what `convert` gives, or fails with `msg` when it gives
      nothing. Every failure is one reason at the input context. */
  function Coercion<T>(input: Kind, msg: string, convert: Value -> Option<T>): (p: Processor<T>)
    ensures forall c: Context :: c.value.None? ==> p.run(c) == Failure([Reason(c, InputUndefined)])
    ensures forall c: Context :: c.value.Some? && !HasKind(c.value.value, input) ==>
      p.run(c) == Failure([Reason(c, TypeMismatch)])
    ensures forall c: Context :: c.value.Some? && HasKind(c.value.value, input) ==>
      && (p.run(c).Success? <==> convert(c.value.value).Some?)
      && (p.run(c).Success? ==> p.run(c).value == convert(c.value.value).value)
      && (p.run(c).Failure? ==> p.run(c).reasons == [Reason(c, msg)])
    ensures forall c: Context :: p.run(c).Failure? ==>
      |p.run(c).reasons| == 1 && p.run(c).reasons[0].context == c
  {
    Processor((c: Context) =>
      match c.value
      case None => Failure([Reason(c, InputUndefined)])
      case Some(v) =>
        if HasKind(v, input) then MkResult(c, msg, convert(v))
        else MkResult(c, TypeMismatch, None))
  }

  /** The message `id(t)` fails with when the kind matches but conversion
      does not (it cannot happen: the kind test is repeated). */
  function IdMessage(t: Kind): string
  {
    "input type was not an instance of " + KindText(t)
  }

  /** `id(t)`: accepts a value already of kind `t`, unchanged. */
  function Id(t: Kind): (p: Processor<Value>)
    ensures forall c: Context :: p.run(c).Success? <==> c.value.Some? && HasKind(c.value.value, t)
    ensures forall c: Context :: p.run(c).Success? ==> p.run(c).value == c.value.value
  {
    Coercion(t, IdMessage(t), (v: Value) => if HasKind(v, t) then Some(v) else None)
  }

  /** The message of a string that does not parse. */
  function IntegerMessage(base: int): string
  {
    "could not parse int in base " + IntText(base)
  }

  /** `integerCoercion(base)`: a string, read by parseInt in that base;
      a NaN result fails. */
  function IntegerCoercion(base: int): (p: Processor<Value>)
    ensures forall c: Context :: p.run(c).Success? <==>
      c.value.Some? && c.value.value.Str? && ParseInt.ParseInt(c.value.value.s, base).Some?
    ensures forall c: Context :: p.run(c).Success? ==>
      p.run(c).value == Num(ParseInt.ParseInt(c.value.value.s, base).value)
  {
    Coercion(StringKind, IntegerMessage(base), (v: Value) =>
      if v.Str? then ParseInt.ParseInt(v.s, base).Map((n: int) => Num(n)) else None)
  }

  /** `R.reduce(orElse, seed, cs)`: the candidates tried after the seed,
      left to right. */
  function FoldOrElse<T>(seed: Processor<T>, cs: seq<Processor<T>>): Processor<T>
    decreases |cs|
  {
    if |cs| == 0 then seed else FoldOrElse(OrElse(seed, cs[0]), cs[1..])
  }

  /** A succeeding seed is the answer; no candidate matters. */
  lemma {:induction false} FoldOrElseSeed<T>(seed: Processor<T>, cs: seq<Processor<T>>, c: Context)
    requires seed.run(c).Success?
    ensures FoldOrElse(seed, cs).run(c) == seed.run(c)
    decreases |cs|
  {
    if |cs| > 0 {
      FoldOrElseSeed(OrElse(seed, cs[0]), cs[1..], c);
    }
  }

  /** After a failing seed, the first succeeding candidate is the answer. */
  lemma {:induction false} FoldOrElseFirst<T>(seed: Processor<T>, cs: seq<Processor<T>>, c: Context, i: nat)
    requires seed.run(c).Failure?
    requires i < |cs| && cs[i].run(c).Success?
    requires forall j :: 0 <= j < i ==> cs[j].run(c).Failure?
    ensures FoldOrElse(seed, cs).run(c) == cs[i].run(c)
    decreases |cs|
  {
    var next := OrElse(seed, cs[0]);
    if i == 0 {
      FoldOrElseSeed(next, cs[1..], c);
    } else {
      assert cs[1..][i - 1] == cs[i];
      FoldOrElseFirst(next, cs[1..], c, i - 1);
    }
  }

  /** When the seed and every candidate fail, so does the chain. */
  lemma {:induction false} FoldOrElseAllFail<T>(seed: Processor<T>, cs: seq<Processor<T>>, c: Context)
    requires seed.run(c).Failure?
    requires forall j :: 0 <= j < |cs| ==> cs[j].run(c).Failure?
    ensures FoldOrElse(seed, cs).run(c).Failure?
    decreases |cs|
  {
    if |cs| > 0 {
      assert forall j :: 0 <= j < |cs| - 1 ==> cs[1..][j] == cs[j + 1];
      FoldOrElseAllFail(OrElse(seed, cs[0]), cs[1..], c);
    }
  }

  /** `coercer(t, cs)`: `id(t)` first, then each candidate in order; the
      first success wins, and when none succeeds one summary reason is
      reported. */
  function Coercer(t: Kind, cs: seq<Processor<Value>>): Processor<Value>
  {
    ErrorMessage(FoldOrElse(Id(t), cs), NoneSucceeded)
  }

  /** A value already of the target kind comes back unchanged, whatever the
      candidates are. */
  lemma CoercerKeepsKind(t: Kind, cs: seq<Processor<Value>>, c: Context)
    requires c.value.Some? && HasKind(c.value.value, t)
    ensures Coercer(t, cs).run(c) == Success(c.value.value)
  {
    FoldOrElseSeed(Id(t), cs, c);
  }

  /** Otherwise the first candidate, in declared order, that succeeds gives
      the result. */
  lemma CoercerFirstSuccess(t: Kind, cs: seq<Processor<Value>>, c: Context, i: nat)
    requires !(c.value.Some? && HasKind(c.value.value, t))
    requires i < |cs| && cs[i].run(c).Success?
    requires forall j :: 0 <= j < i ==> cs[j].run(c).Failure?
    ensures Coercer(t, cs).run(c) == cs[i].run(c)
  {
    FoldOrElseFirst(Id(t), cs, c, i);
  }

  /** When `id(t)` and every candidate fail, the only reason is the summary,
      at the input context. */
  lemma CoercerAllFail(t: Kind, cs: seq<Processor<Value>>, c: Context)
    requires !(c.value.Some? && HasKind(c.value.value, t))
    requires forall j :: 0 <= j < |cs| ==> cs[j].run(c).Failure?
    ensures Coercer(t, cs).run(c) == Failure([Reason(c, NoneSucceeded)])
  {
    FoldOrElseAllFail(Id(t), cs, c);
  }
}
