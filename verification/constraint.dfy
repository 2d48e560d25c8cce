/** The constraint combinators of src/constraint.js: processors that check
    the value at a context, look into fields and array items, and gather
    the reasons of independent checks. */
module Constraint {
  import opened Maybe
  import opened Values
  import opened Types

  /** The message of a check that needs a value and finds none. */
  const NotDefined := "value is not defined"

  /** `exists`: succeeds with the value when there is one. */
  function Exists(): (p: Processor<Value>)
    ensures forall c: Context :: p.run(c).Success? <==> c.value.Some?
    ensures forall c: Context :: p.run(c).Success? ==> p.run(c).value == c.value.value
    ensures forall c: Context :: p.run(c).Failure? ==> p.run(c).reasons == [Reason(c, NotDefined)]
  {
    Processor((c: Context) =>
      match c.value
      case Some(v) => Success(v)
      case None => Failure([Reason(c, NotDefined)]))
  }

  /** `anything`: always succeeds, with the possibly absent value. */
  function Anything(): (p: Processor<Option<Value>>)
    ensures forall c: Context :: p.run(c).Success? && p.run(c).value == c.value
  {
    Identity()
  }

  /** `check(pred, msg)`: succeeds with the value, unchanged, exactly when
      there is one and `pred` holds of it; otherwise one reason at the
      context, saying which of the two went wrong. */
  function Check(pred: Value -> bool, msg: string): (p: Processor<Value>)
    ensures forall c: Context :: p.run(c).Success? <==> c.value.Some? && pred(c.value.value)
    ensures forall c: Context :: p.run(c).Success? ==> p.run(c).value == c.value.value
    ensures forall c: Context :: p.run(c).Failure? ==>
      p.run(c).reasons == [Reason(c, if c.value.None? then NotDefined else msg)]
  {
    Processor((c: Context) =>
      match c.value
      case None => Failure([Reason(c, NotDefined)])
      case Some(v) => if pred(v) then Success(v) else Failure([Reason(c, msg)]))
  }

  /** `isEq(x)`: the value deep-equals `x`. */
  function IsEq(x: Value): (p: Processor<Value>)
    ensures forall c: Context :: p.run(c).Success? <==> c.value == Some(x)
    ensures forall c: Context :: p.run(c).Success? ==> p.run(c).value == x
  {
    Check((v: Value) => v == x, "is not equal to " + Text(x))
  }

  /** `isGt(x)`: the value is greater than `x`. */
  function IsGt(x: Value): (p: Processor<Value>)
    ensures forall c: Context :: p.run(c).Success? <==> c.value.Some? && Less(x, c.value.value)
    ensures forall c: Context :: p.run(c).Success? ==> p.run(c).value == c.value.value
  {
    Check((v: Value) => Less(x, v), "is not greather than " + Text(x))
  }

  /** `isGte(x)`: the value is at least `x`. */
  function IsGte(x: Value): (p: Processor<Value>)
    ensures forall c: Context :: p.run(c).Success? <==> c.value.Some? && LessOrEqual(x, c.value.value)
    ensures forall c: Context :: p.run(c).Success? ==> p.run(c).value == c.value.value
  {
    Check((v: Value) => LessOrEqual(x, v), "is not greater than or equal to " + Text(x))
  }

  /** `isLt(x)`: the value is less than `x`. */
  function IsLt(x: Value): (p: Processor<Value>)
    ensures forall c: Context :: p.run(c).Success? <==> c.value.Some? && Less(c.value.value, x)
    ensures forall c: Context :: p.run(c).Success? ==> p.run(c).value == c.value.value
  {
    Check((v: Value) => Less(v, x), "is not less than " + Text(x))
  }

  /** `isLte(x)`: the value is at most `x` (its message is the one the
      code gives, which reads like `isGte`'s). */
  function IsLte(x: Value): (p: Processor<Value>)
    ensures forall c: Context :: p.run(c).Success? <==> c.value.Some? && LessOrEqual(c.value.value, x)
    ensures forall c: Context :: p.run(c).Success? ==> p.run(c).value == c.value.value
  {
    Check((v: Value) => LessOrEqual(v, x), "is not greater than or equal to " + Text(x))
  }

  /** The message `isA(t)` fails with. */
  function KindMessage(t: Kind): string
  {
    "is not an instance of " + KindText(t)
  }

  /** `isA(t)`: the value is of kind `t`. */
  function IsA(t: Kind): (p: Processor<Value>)
    ensures forall c: Context :: p.run(c).Success? <==> c.value.Some? && HasKind(c.value.value, t)
    ensures forall c: Context :: p.run(c).Success? ==> p.run(c).value == c.value.value
    ensures forall c: Context :: c.value.Some? && p.run(c).Failure? ==> p.run(c).reasons == [Reason(c, KindMessage(t))]
  {
    Check((v: Value) => HasKind(v, t), KindMessage(t))
  }

  /** `isNumber`. */
  function IsNumber(): (p: Processor<Value>)
    ensures forall c: Context :: p.run(c).Success? <==> c.value.Some? && c.value.value.Num?
  {
    IsA(NumberKind)
  }

  /** `isNumber` on one context: a present number passes unchanged, any
      other present value fails with the kind message, and an absent value
      fails as not defined. */
  lemma IsNumberRun(c: Context)
    ensures IsNumber().run(c).Success? <==> c.value.Some? && c.value.value.Num?
    ensures c.value.Some? && c.value.value.Num? ==> IsNumber().run(c) == Success(c.value.value)
    ensures c.value.Some? && !c.value.value.Num? ==> IsNumber().run(c) == Failure([Reason(c, KindMessage(NumberKind))])
    ensures c.value.None? ==> IsNumber().run(c) == Failure([Reason(c, NotDefined)])
  {
  }

  /** `isString`. */
  function IsString(): (p: Processor<Value>)
    ensures forall c: Context :: p.run(c).Success? <==> c.value.Some? && c.value.value.Str?
  {
    IsA(StringKind)
  }

  /** `isString` on one context: a present string passes unchanged, any
      other present value fails with the kind message, and an absent value
      fails as not defined. */
  lemma IsStringRun(c: Context)
    ensures IsString().run(c).Success? <==> c.value.Some? && c.value.value.Str?
    ensures c.value.Some? && c.value.value.Str? ==> IsString().run(c) == Success(c.value.value)
    ensures c.value.Some? && !c.value.value.Str? ==> IsString().run(c) == Failure([Reason(c, KindMessage(StringKind))])
    ensures c.value.None? ==> IsString().run(c) == Failure([Reason(c, NotDefined)])
  {
  }

  /** `isArray`. */
  function IsArray(): (p: Processor<Value>)
    ensures forall c: Context :: p.run(c).Success? <==> c.value.Some? && c.value.value.Arr?
  {
    IsA(ArrayKind)
  }

  /** `isArray` on one context: a present array passes unchanged, any
      other present value fails with the kind message, and an absent value
      fails as not defined. */
  lemma IsArrayRun(c: Context)
    ensures IsArray().run(c).Success? <==> c.value.Some? && c.value.value.Arr?
    ensures c.value.Some? && c.value.value.Arr? ==> IsArray().run(c) == Success(c.value.value)
    ensures c.value.Some? && !c.value.value.Arr? ==> IsArray().run(c) == Failure([Reason(c, KindMessage(ArrayKind))])
    ensures c.value.None? ==> IsArray().run(c) == Failure([Reason(c, NotDefined)])
  {
  }

  // ---------------------------------------------------------------------
  // Running many processors on one context

  /** `R.commute(Processor.of, ps)`: every processor runs on the same
      context; the values are collected in order. */
  function Commute<T>(ps: seq<Processor<T>>): Processor<seq<T>>
    decreases |ps|
  {
    if |ps| == 0 then Of([])
    else Ap(Map(ps[0], (v: T) => (vs: seq<T>) => [v] + vs), Commute(ps[1..]))
  }

  /** The reasons of all processors on one context, in declaration order. */
  function AllFailures<T>(ps: seq<Processor<T>>, c: Context): seq<Reason>
    decreases |ps|
  {
    if |ps| == 0 then [] else FailuresOf(ps[0].run(c)) + AllFailures(ps[1..], c)
  }

  /** The reasons of a concatenation are the reasons of the parts. */
  lemma {:induction false} AllFailuresAppend<T>(ps: seq<Processor<T>>, qs: seq<Processor<T>>, c: Context)
    ensures AllFailures(ps + qs, c) == AllFailures(ps, c) + AllFailures(qs, c)
    decreases |ps|
  {
    if |ps| > 0 {
      assert (ps + qs)[1..] == ps[1..] + qs;
      AllFailuresAppend(ps[1..], qs, c);
    } else {
      assert ps + qs == qs;
    }
  }

  /** There are no reasons exactly when every processor succeeds. */
  lemma {:induction false} AllFailuresEmpty<T>(ps: seq<Processor<T>>, c: Context)
    ensures |AllFailures(ps, c)| == 0 <==> forall i :: 0 <= i < |ps| ==> ps[i].run(c).Success?
    decreases |ps|
  {
    if |ps| > 0 {
      AllFailuresEmpty(ps[1..], c);
      assert forall i :: 1 <= i < |ps| ==> ps[i] == ps[1..][i - 1];
    }
  }

  /** Commute succeeds when every processor does, with their values in
      order, and otherwise reports every reason in declaration order. */
  lemma {:induction false} CommuteRun<T>(ps: seq<Processor<T>>, c: Context)
    ensures Commute(ps).run(c).Success? <==> forall i :: 0 <= i < |ps| ==> ps[i].run(c).Success?
    ensures Commute(ps).run(c).Success? ==>
      |Commute(ps).run(c).value| == |ps|
      && forall i :: 0 <= i < |ps| ==> Commute(ps).run(c).value[i] == ps[i].run(c).value
    ensures FailuresOf(Commute(ps).run(c)) == AllFailures(ps, c)
    decreases |ps|
  {
    if |ps| > 0 {
      CommuteRun(ps[1..], c);
      assert forall i :: 1 <= i < |ps| ==> ps[i] == ps[1..][i - 1];
    }
  }

  /** Processors that all succeed commute into the sequence of their
      values. */
  lemma {:induction false} CommuteSucceeds<T>(ps: seq<Processor<T>>, c: Context, vs: seq<T>)
    requires |vs| == |ps|
    requires forall i :: 0 <= i < |ps| ==> ps[i].run(c) == Success(vs[i])
    ensures Commute(ps).run(c) == Success(vs)
    decreases |ps|
  {
    if |ps| > 0 {
      CommuteSucceeds(ps[1..], c, vs[1..]);
      assert [vs[0]] + vs[1..] == vs;
    }
  }

  /** `last(ps)`: every processor runs on the same context; the final
      processor's value is kept. */
  function Last<T>(ps: seq<Processor<T>>): Processor<T>
    requires |ps| > 0
  {
    AndThen(Commute(ps[..|ps| - 1]), ps[|ps| - 1])
  }

  /** Last succeeds when every processor does, with the final one's
      value, and otherwise reports all reasons in declaration order. */
  lemma LastRun<T>(ps: seq<Processor<T>>, c: Context)
    requires |ps| > 0
    ensures Last(ps).run(c).Success? <==> forall i :: 0 <= i < |ps| ==> ps[i].run(c).Success?
    ensures Last(ps).run(c).Success? ==> Last(ps).run(c).value == ps[|ps| - 1].run(c).value
    ensures FailuresOf(Last(ps).run(c)) == AllFailures(ps, c)
  {
    var init, final := ps[..|ps| - 1], ps[|ps| - 1];
    var r := Last(ps).run(c);
    CommuteRun(init, c);
    assert FailuresOf(r) == AllFailures(init, c) + FailuresOf(final.run(c));
    AllFailuresAppend(init, [final], c);
    assert init + [final] == ps;
    assert AllFailures([final], c) == FailuresOf(final.run(c)) + AllFailures([final][1..], c);
    assert [final][1..] == [];
    AllFailuresEmpty(ps, c);
  }

  // ---------------------------------------------------------------------
  // Object fields

  /** What a field processor yields: a `[name, value]` pair, or the empty
      array of an absent optional field or a rejected one. */
  datatype Entry<T> = Pair(key: string, val: T) | Empty

  /** `property(constraint, name)`: the field must exist, then `constraint`
      runs on it; the result is the pair of the name and its value. */
  function Property<T>(constraint: Processor<T>, name: string): (p: Processor<Entry<T>>)
    ensures forall c: Context :: Derive(c, Field(name)).value.None? ==>
      p.run(c) == Failure([Reason(Derive(c, Field(name)), NotDefined)])
    ensures forall c: Context :: Derive(c, Field(name)).value.Some? ==>
      (p.run(c).Success? <==> constraint.run(Derive(c, Field(name))).Success?)
    ensures forall c: Context :: p.run(c).Success? ==>
      p.run(c).value == Pair(name, constraint.run(Derive(c, Field(name))).value)
    ensures forall c: Context :: Derive(c, Field(name)).value.Some? && p.run(c).Failure? ==>
      p.run(c).reasons == constraint.run(Derive(c, Field(name))).reasons
  {
    var path := Field(name);
    Map(Chain(Asks(Exists(), path), (_: Value) => Asks(constraint, path)), (v: T) => Pair(name, v))
  }

  /** `optionalProperty(constraint, opts, name)`: a present field is
      checked as by `property`; an absent one yields the default pair, or
      the empty entry when there is no default. The default is not
      checked. */
  function OptionalProperty<T>(constraint: Processor<T>, defaultValue: Option<T>, name: string): (p: Processor<Entry<T>>)
    ensures forall c: Context :: Derive(c, Field(name)).value.Some? ==> p.run(c) == Property(constraint, name).run(c)
    ensures forall c: Context :: Derive(c, Field(name)).value.None? ==> p.run(c).Success?
    ensures forall c: Context :: Derive(c, Field(name)).value.None? ==>
      (p.run(c).value.Pair? <==> defaultValue.Some?)
    ensures forall c: Context :: Derive(c, Field(name)).value.None? && defaultValue.Some? ==>
      p.run(c).value == Pair(name, defaultValue.value)
  {
    Processor((c: Context) =>
      if Derive(c, Field(name)).value.Some? then Property(constraint, name).run(c)
      else match defaultValue
        case Some(d) => Success(Pair(name, d))
        case None => Success(Empty))
  }

  /** The default an options object configures: its `default` field, when
      that is truthy. */
  function ConfiguredDefault(opts: map<string, Value>): (d: Option<Value>)
    ensures d.Some? <==> "default" in opts && Truthy(opts["default"])
    ensures d.Some? ==> d.value == opts["default"]
  {
    if "default" in opts && Truthy(opts["default"]) then Some(opts["default"]) else None
  }

  /** The message `rejectProperty(name)` fails with. */
  function DisallowedMessage(name: string): string
  {
    "property " + name + " is disallowed"
  }

  /** `rejectProperty(name)`: succeeds with the empty entry exactly when
      the field is absent; a present field is one reason at the parent. */
  function RejectProperty<T>(name: string): (p: Processor<Entry<T>>)
    ensures forall c: Context :: p.run(c).Success? <==> Derive(c, Field(name)).value.None?
    ensures forall c: Context :: p.run(c).Success? ==> p.run(c).value == Empty
    ensures forall c: Context :: p.run(c).Failure? ==> p.run(c).reasons == [Reason(c, DisallowedMessage(name))]
  {
    Processor((c: Context) =>
      if Derive(c, Field(name)).value.Some? then Failure([Reason(c, DisallowedMessage(name))])
      else Success(Empty))
  }

  /** `R.fromPairs`: later pairs overwrite earlier ones with the same key;
      empty entries add nothing. */
  function FromPairs<T>(es: seq<Entry<T>>): map<string, T>
  {
    if |es| == 0 then map[]
    else
      var m := FromPairs(es[..|es| - 1]);
      match es[|es| - 1]
      case Pair(k, v) => m[k := v]
      case Empty => m
  }

  /** The keys of the pairs among `es`. */
  function KeysOf<T>(es: seq<Entry<T>>): set<string>
  {
    set i | 0 <= i < |es| && es[i].Pair? :: es[i].key
  }

  /** The object built from entries has exactly the keys of their pairs. */
  lemma {:induction false} FromPairsKeys<T>(es: seq<Entry<T>>)
    ensures FromPairs(es).Keys == KeysOf(es)
    decreases |es|
  {
    if |es| > 0 {
      var init := es[..|es| - 1];
      FromPairsKeys(init);
      assert forall i :: 0 <= i < |init| ==> init[i] == es[i];
      if es[|es| - 1].Pair? {
        assert KeysOf(es) == KeysOf(init) + {es[|es| - 1].key};
      } else {
        assert KeysOf(es) == KeysOf(init);
      }
    }
  }

  /** A key takes the value of the last pair that carries it. */
  lemma {:induction false} FromPairsLastWins<T>(es: seq<Entry<T>>, i: nat)
    requires i < |es| && es[i].Pair?
    requires forall j :: i < j < |es| ==> !(es[j].Pair? && es[j].key == es[i].key)
    ensures es[i].key in FromPairs(es) && FromPairs(es)[es[i].key] == es[i].val
    decreases |es|
  {
    if i < |es| - 1 {
      var init := es[..|es| - 1];
      FromPairsLastWins(init, i);
    }
  }

  /** `assoc(fields)`: every field processor runs on the same context;
      their pairs make one object. */
  function Assoc<T>(fields: seq<Processor<Entry<T>>>): Processor<map<string, T>>
  {
    Map(Commute(fields), (es: seq<Entry<T>>) => FromPairs(es))
  }

  /** Assoc succeeds when every field processor does, with an object of
      exactly their pairs, a later pair winning a repeated key; otherwise it
      reports the reasons of every failing field in declaration order. */
  lemma AssocRun<T>(fields: seq<Processor<Entry<T>>>, c: Context)
    ensures Assoc(fields).run(c).Success? <==> forall i :: 0 <= i < |fields| ==> fields[i].run(c).Success?
    ensures FailuresOf(Assoc(fields).run(c)) == AllFailures(fields, c)
    ensures Assoc(fields).run(c).Success? ==>
      Assoc(fields).run(c).value.Keys == KeysOf(Commute(fields).run(c).value)
      && |Commute(fields).run(c).value| == |fields|
      && forall i :: 0 <= i < |fields| ==> Commute(fields).run(c).value[i] == fields[i].run(c).value
    ensures Assoc(fields).run(c).Success? ==>
      forall i :: 0 <= i < |fields| && fields[i].run(c).value.Pair?
        && (forall j :: i < j < |fields| ==> fields[j].run(c).value.Pair? ==> fields[j].run(c).value.key != fields[i].run(c).value.key)
        ==> Assoc(fields).run(c).value[fields[i].run(c).value.key] == fields[i].run(c).value.val
  {
    CommuteRun(fields, c);
    var r := Commute(fields).run(c);
    if r.Success? {
      FromPairsKeys(r.value);
      forall i | 0 <= i < |fields| && fields[i].run(c).value.Pair?
        && (forall j :: i < j < |fields| ==> fields[j].run(c).value.Pair? ==> fields[j].run(c).value.key != fields[i].run(c).value.key)
        ensures Assoc(fields).run(c).value[fields[i].run(c).value.key] == fields[i].run(c).value.val
      {
        FromPairsLastWins(r.value, i);
      }
    }
  }

  // ---------------------------------------------------------------------
  // Arrays

  /** One `onItem.asks(Index(i))` for each index below `n`, ascending. */
  function ItemProcessors<T>(onItem: Processor<T>, n: int): (ps: seq<Processor<T>>)
    ensures |ps| == if n < 0 then 0 else n
    ensures forall i :: 0 <= i < |ps| ==> ps[i] == Asks(onItem, Index(i))
  {
    seq(if n < 0 then 0 else n, (i: int) requires 0 <= i => Asks(onItem, Index(i)))
  }

  /** The number of items to check: the length constraint's result when it
      is a number, the actual length otherwise. */
  function EffectiveLength(lengthResult: Value, actual: Value): Value
  {
    if lengthResult.Num? then lengthResult else actual
  }

  /** First stage of `array`: the input must be an array, and its length
      (always a number then) is the value. */
  function Measure(): (p: Processor<Value>)
    ensures forall c: Context :: c.value.None? ==> p.run(c) == Failure([Reason(c, NotDefined)])
    ensures forall c: Context :: c.value.Some? && !c.value.value.Arr? ==>
      p.run(c) == Failure([Reason(c, KindMessage(ArrayKind))])
    ensures forall c: Context :: c.value.Some? && c.value.value.Arr? ==>
      p.run(c) == Success(Num(|c.value.value.items|))
  {
    Chain(IsArray(), (_: Value) => Asks(IsNumber(), Field("length")))
  }

  /** Second stage of `array`: the length constraint runs on the length;
      its result is used when it is a number. */
  function Limit(onLength: Processor<Value>, actual: Value): (p: Processor<Value>)
    ensures forall c: Context :: onLength.run(Derive(c, Field("length"))).Failure? ==>
      p.run(c) == Failure(onLength.run(Derive(c, Field("length"))).reasons)
    ensures forall c: Context :: onLength.run(Derive(c, Field("length"))).Success? ==>
      p.run(c) == Success(EffectiveLength(onLength.run(Derive(c, Field("length"))).value, actual))
  {
    Chain(Asks(onLength, Field("length")), (r: Value) => Of(EffectiveLength(r, actual)))
  }

  /** The number of indices `R.unfold` produces for a length value. */
  function Count(l: Value): int
  {
    if l.Num? then l.n else 0
  }

  /** Last stage of `array`: each index below the length is checked. */
  function CheckItems<T>(onItem: Processor<T>, l: Value): Processor<seq<T>>
  {
    Commute(ItemProcessors(onItem, Count(l)))
  }

  /** `array(onLength, onItem)`. */
  function Array<T>(onLength: Processor<Value>, onItem: Processor<T>): Processor<seq<T>>
  {
    Chain(Chain(Measure(), (l: Value) => Limit(onLength, l)), (l: Value) => CheckItems(onItem, l))
  }

  /** The number of items `array(onLength, _)` checks on an array of `n`
      items, given the length constraint's result. */
  function ItemCount(lengthResult: Value, n: nat): int
  {
    if lengthResult.Num? then lengthResult.n else n
  }

  /** A non-array fails before any item or the length is checked. */
  lemma ArrayRejectsNonArray<T>(onLength: Processor<Value>, onItem: Processor<T>, c: Context)
    ensures c.value.None? ==> Array(onLength, onItem).run(c) == Failure([Reason(c, NotDefined)])
    ensures c.value.Some? && !c.value.value.Arr? ==>
      Array(onLength, onItem).run(c) == Failure([Reason(c, KindMessage(ArrayKind))])
  {
    var m := Measure().run(c);
    if m.Failure? {
      assert Chain(Measure(), (l: Value) => Limit(onLength, l)).run(c) == Failure(m.reasons);
    }
  }

  /** On an array, the length constraint's result decides what happens:
      its failure is the answer, and otherwise the items below the
      effective length are checked. */
  lemma ArrayStages<T>(onLength: Processor<Value>, onItem: Processor<T>, c: Context)
    requires c.value.Some? && c.value.value.Arr?
    ensures onLength.run(Derive(c, Field("length"))).Failure? ==>
      Array(onLength, onItem).run(c) == Failure(onLength.run(Derive(c, Field("length"))).reasons)
    ensures onLength.run(Derive(c, Field("length"))).Success? ==>
      Array(onLength, onItem).run(c)
        == Commute(ItemProcessors(onItem, ItemCount(onLength.run(Derive(c, Field("length"))).value, |c.value.value.items|))).run(c)
  {
    var limited := Chain(Measure(), (l: Value) => Limit(onLength, l));
    var actual := Num(|c.value.value.items|);
    assert Measure().run(c) == Success(actual);
    assert limited.run(c) == Limit(onLength, actual).run(c);
    var lr := onLength.run(Derive(c, Field("length")));
    if lr.Success? {
      var eff := EffectiveLength(lr.value, actual);
      assert limited.run(c) == Success(eff);
      assert Count(eff) == ItemCount(lr.value, |c.value.value.items|);
    }
  }

  /** On an array whose length constraint succeeds, `array` is the
      commuted processors of the indices below the effective length. */
  lemma ArrayIsCommute<T>(onLength: Processor<Value>, onItem: Processor<T>, c: Context)
    requires c.value.Some? && c.value.value.Arr?
    requires onLength.run(Derive(c, Field("length"))).Success?
    ensures Array(onLength, onItem).run(c)
      == Commute(ItemProcessors(onItem, ItemCount(onLength.run(Derive(c, Field("length"))).value, |c.value.value.items|))).run(c)
  {
    ArrayStages(onLength, onItem, c);
  }

  /** The array succeeds iff every index below the effective length does. */
  lemma ArraySucceedsIffItems<T>(onLength: Processor<Value>, onItem: Processor<T>, c: Context)
    requires c.value.Some? && c.value.value.Arr?
    requires onLength.run(Derive(c, Field("length"))).Success?
    ensures
      var n := ItemCount(onLength.run(Derive(c, Field("length"))).value, |c.value.value.items|);
      Array(onLength, onItem).run(c).Success? <==> forall i: nat :: i < n ==> onItem.run(Derive(c, Index(i))).Success?
  {
    var n := ItemCount(onLength.run(Derive(c, Field("length"))).value, |c.value.value.items|);
    ArrayIsCommute(onLength, onItem, c);
    CommuteItems(onItem, n, c);
  }

  /** A successful array holds the per-index values in index order. */
  lemma ArrayValuesAreItems<T>(onLength: Processor<Value>, onItem: Processor<T>, c: Context)
    requires c.value.Some? && c.value.value.Arr?
    requires onLength.run(Derive(c, Field("length"))).Success?
    requires Array(onLength, onItem).run(c).Success?
    ensures
      var n := ItemCount(onLength.run(Derive(c, Field("length"))).value, |c.value.value.items|);
      var vs := Array(onLength, onItem).run(c).value;
      && |vs| == (if n < 0 then 0 else n)
      && forall i: nat :: i < |vs| ==> onItem.run(Derive(c, Index(i))) == Success(vs[i])
  {
    var n := ItemCount(onLength.run(Derive(c, Field("length"))).value, |c.value.value.items|);
    ArrayIsCommute(onLength, onItem, c);
    CommuteItems(onItem, n, c);
  }

  /** The reasons of an array are those of its failing items, in index order. */
  lemma ArrayFailuresAreItems<T>(onLength: Processor<Value>, onItem: Processor<T>, c: Context)
    requires c.value.Some? && c.value.value.Arr?
    requires onLength.run(Derive(c, Field("length"))).Success?
    ensures
      var n := ItemCount(onLength.run(Derive(c, Field("length"))).value, |c.value.value.items|);
      FailuresOf(Array(onLength, onItem).run(c)) == AllFailures(ItemProcessors(onItem, n), c)
  {
    var n := ItemCount(onLength.run(Derive(c, Field("length"))).value, |c.value.value.items|);
    ArrayIsCommute(onLength, onItem, c);
    CommuteItems(onItem, n, c);
  }

  /** Commute over the item processors, stated per index. */
  lemma CommuteItems<T>(onItem: Processor<T>, n: int, c: Context)
    ensures
      var r := Commute(ItemProcessors(onItem, n)).run(c);
      && (r.Success? <==> forall i: nat :: i < n ==> onItem.run(Derive(c, Index(i))).Success?)
      && (r.Success? ==> |r.value| == (if n < 0 then 0 else n)
                         && forall i: nat :: i < |r.value| ==> r.value[i] == onItem.run(Derive(c, Index(i))).value)
      && FailuresOf(r) == AllFailures(ItemProcessors(onItem, n), c)
  {
    var ps := ItemProcessors(onItem, n);
    CommuteRun(ps, c);
    forall i: nat | i < |ps|
      ensures ps[i].run(c) == onItem.run(Derive(c, Index(i)))
    {
      assert ps[i] == Asks(onItem, Index(i));
    }
  }

  /** `anyLenArray(onItem)`: `array` whose length constraint is `isNumber`. */
  function AnyLenArray<T>(onItem: Processor<T>): Processor<seq<T>>
  {
    Array(IsNumber(), onItem)
  }

  /** On an array, anyLenArray checks every item and nothing past the end. */
  lemma AnyLenArrayCoversItems<T>(onItem: Processor<T>, c: Context)
    requires c.value.Some? && c.value.value.Arr?
    ensures AnyLenArray(onItem).run(c).Success? <==>
      forall i: nat :: i < |c.value.value.items| ==> onItem.run(Derive(c, Index(i))).Success?
    ensures FailuresOf(AnyLenArray(onItem).run(c)) == AllFailures(ItemProcessors(onItem, |c.value.value.items|), c)
  {
    assert IsNumber().run(Derive(c, Field("length"))) == Success(Num(|c.value.value.items|));
    ArraySucceedsIffItems(IsNumber(), onItem, c);
    ArrayFailuresAreItems(IsNumber(), onItem, c);
  }
}
