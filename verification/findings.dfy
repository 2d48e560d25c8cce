/** Five operations modelled as the repository writes them, each beside
    the corrected definition the rest of the model uses, with an input on
    which the two differ. */
module Findings {
  import opened Maybe
  import opened Values
  import opened Types
  import opened Constraint
  import opened Coercions
  import Examples

  // ---------------------------------------------------------------------
  // derive under an absent value

  /** The Maybe a context derived as written holds. `Context.Derived`
      wraps its value argument with `Maybe.fromNullable`; under an absent
      parent that argument is `Maybe.Nothing()` itself, which is not null,
      so the result is `Just(Nothing)`: `Some(None)` here. */
  function DeriveAsWritten(c: Context, p: Path): (m: Option<Option<Value>>)
    ensures c.value.None? ==> m == Some(None)
    ensures c.value.Some? ==> (m.Some? <==> Derive(c, p).value.Some?)
    ensures c.value.Some? && m.Some? ==> m.value == Some(Derive(c, p).value.value)
  {
    match c.value
    case Some(v) => (if Project(v, p) == Null then None else Some(Some(Project(v, p))))
    case None => Some(None)
  }

  /** Below an absent value, the code as written reports a present one
      (so `exists` would succeed on it), while the corrected `Derive` keeps
      it absent. */
  lemma DeriveAbsentParentDiffers()
    ensures DeriveAsWritten(Root(None), Field("a")).Some?
    ensures Derive(Root(None), Field("a")).value.None?
  {
  }

  /** The two agree whenever the parent holds a value. */
  lemma DeriveAsWrittenAgrees(c: Context, p: Path)
    requires c.value.Some?
    ensures DeriveAsWritten(c, p).Some? <==> Derive(c, p).value.Some?
  {
  }

  // ---------------------------------------------------------------------
  // last

  /** `last` as written: `R.commute(Processor.of, ps).map(R.tail)`, the
      values of every processor but the first. */
  function LastAsWritten<T>(ps: seq<Processor<T>>): Processor<seq<T>>
  {
    Map(Commute(ps), (vs: seq<T>) => if |vs| == 0 then [] else vs[1..])
  }

  /** The code as written runs every processor and collects every reason,
      as intended, but keeps the values of all processors after the first
      rather than the final one's. */
  lemma LastAsWrittenRun<T>(ps: seq<Processor<T>>, c: Context)
    requires |ps| > 0
    ensures LastAsWritten(ps).run(c).Success? <==> forall i :: 0 <= i < |ps| ==> ps[i].run(c).Success?
    ensures FailuresOf(LastAsWritten(ps).run(c)) == AllFailures(ps, c)
    ensures LastAsWritten(ps).run(c).Success? ==>
      |LastAsWritten(ps).run(c).value| == |ps| - 1
      && forall i :: 1 <= i < |ps| ==> LastAsWritten(ps).run(c).value[i - 1] == ps[i].run(c).value
  {
    CommuteRun(ps, c);
  }

  /** On `last([isEven, isPos])` and 2 the code as written yields the
      one-item array `[2]`; the corrected `Last` yields 2. */
  lemma LastAsWrittenWrapsValue()
    ensures LastAsWritten(Examples.EvenThenPositive()).run(RootOf(Num(2))) == Success([Num(2)])
    ensures Last(Examples.EvenThenPositive()).run(RootOf(Num(2))) == Success(Num(2))
  {
    var ps := Examples.EvenThenPositive();
    var c := RootOf(Num(2));
    assert ps[0].run(c) == Success(Num(2)) && ps[1].run(c) == Success(Num(2));
    LastAsWrittenRun(ps, c);
    var r := LastAsWritten(ps).run(c);
    assert r.value == [Num(2)];
    Examples.LastPasses();
  }

  // ---------------------------------------------------------------------
  // assoc with empty entries

  /** The JavaScript value an entry's key and value become in an object
      as written: an empty entry `[]` has key and value `undefined`, and
      the key is converted to the string "undefined". */
  function KeyAsWritten<T>(e: Entry<T>): string
  {
    match e
    case Pair(k, _) => k
    case Empty => "undefined"
  }

  /** `R.fromPairs` over entries as written: every entry writes its key,
      an empty one writing `undefined` (here `None`) under "undefined". */
  function FromPairsAsWritten<T>(es: seq<Entry<T>>): (m: map<string, Option<T>>)
    ensures m.Keys == set i | 0 <= i < |es| :: KeyAsWritten(es[i])
  {
    if |es| == 0 then map[]
    else
      var m := FromPairsAsWritten(es[..|es| - 1]);
      var e := es[|es| - 1];
      assert forall i :: 0 <= i < |es| - 1 ==> es[..|es| - 1][i] == es[i];
      match e
      case Pair(k, v) => m[k := Some(v)]
      case Empty => m["undefined" := None]
  }

  /** `assoc` as written. */
  function AssocAsWritten<T>(fields: seq<Processor<Entry<T>>>): Processor<map<string, Option<T>>>
  {
    Map(Commute(fields), (es: seq<Entry<T>>) => FromPairsAsWritten(es))
  }

  /** `[rejectProperty('a')]` on `{}` yields the one empty entry. */
  lemma RejectedEntries()
    ensures Commute([RejectProperty<Value>("a")]).run(RootOf(Obj(map[]))) == Success([Empty])
  {
    var fs := [RejectProperty<Value>("a")];
    var c := RootOf(Obj(map[]));
    assert Derive(c, Field("a")).value.None?;
    assert fs[0].run(c) == Success(Empty);
    CommuteSucceeds(fs, c, [Empty]);
  }

  /** `assoc([rejectProperty('a')])` on `{}`: the code as written builds an
      object with the key "undefined"; the corrected `Assoc` builds the
      empty object. */
  lemma AssocAsWrittenAddsUndefined()
    ensures AssocAsWritten([RejectProperty<Value>("a")]).run(RootOf(Obj(map[]))).Success?
    ensures "undefined" in AssocAsWritten([RejectProperty<Value>("a")]).run(RootOf(Obj(map[]))).value
    ensures Assoc([RejectProperty<Value>("a")]).run(RootOf(Obj(map[]))) == Success(map[])
  {
    RejectedEntries();
    var es: seq<Entry<Value>> := [Empty];
    assert es[..0] == [];
    assert KeyAsWritten(es[0]) == "undefined";
    assert FromPairs(es) == map[];
  }

  // ---------------------------------------------------------------------
  // errorMessage and coercer

  /** How a JavaScript call ends: with a result or with a thrown
      TypeError. */
  datatype Outcome<T> = Returns(result: Result<T>) | Throws

  /** `p.errorMessage(msg).run(c)` as written. `Reason(context, msg)` is
      called without `new` in a strict-mode module, so `this` is undefined
      and its first assignment, to `this.context`, throws. The call is the
      argument of `R.always`, evaluated before `fold` is reached, so every
      run throws, whatever `p` gives. */
  function ErrorMessageAsWritten<T>(p: Processor<T>, msg: string, c: Context): (o: Outcome<T>)
    ensures o.Throws?
  {
    Throws
  }

  /** Even a processor that succeeds throws once wrapped as written, while
      the corrected `ErrorMessage` passes its success through and turns a
      failure into one reason with the new message. */
  lemma ErrorMessageAsWrittenThrows<T>(p: Processor<T>, msg: string, c: Context)
    ensures ErrorMessageAsWritten(p, msg, c).Throws?
    ensures p.run(c).Success? ==> ErrorMessage(p, msg).run(c) == p.run(c)
    ensures p.run(c).Failure? ==> ErrorMessage(p, msg).run(c) == Failure([Reason(c, msg)])
  {
  }

  /** `coercer(t, cs)`, built and then run on `c`, as written. The throw
      happens when the coercer is built: `R.reduce` is handed the undefined
      `fn.orElse` as its step function, and throws as soon as it has a
      coercion to fold in. With no coercions, a `reduce` that returned the
      seed would leave `id(t).errorMessage(...)`, which throws when run; a
      `reduce` that calls into its undefined step function even on an empty
      list throws at build time. Either way no result is produced. */
  function CoercerAsWritten(t: Kind, cs: seq<Processor<Value>>, c: Context): (o: Outcome<Value>)
    ensures o.Throws?
  {
    if |cs| > 0 then Throws else ErrorMessageAsWritten(Id(t), NoneSucceeded, c)
  }

  /** `coercer(Number, [integerCoercion(10)])` on "1": the code as written
      throws, while the corrected `Coercer` parses the string. */
  lemma CoercerAsWrittenThrows()
    ensures CoercerAsWritten(NumberKind, [IntegerCoercion(10)], RootOf(Str("1"))).Throws?
    ensures Coercer(NumberKind, [IntegerCoercion(10)]).run(RootOf(Str("1"))) == Success(Num(1))
  {
    Examples.CoercerParses();
  }
}
