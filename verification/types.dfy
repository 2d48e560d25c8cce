/** Locations, failure records and the Processor algebra of src/types.js.
    A Processor is a pure function from a Context (a location in the input
    together with the value found there) to a Result. */
module Types {
  import opened Maybe
  import opened Values
  import Numerals

  // ---------------------------------------------------------------------
  // Paths

  /** One navigation step: an array index, or an object field name (the
      code's `Path.Property`). */
  datatype Path = Index(n: nat) | Field(name: string)

  /** Bracket notation: `[n]` for an index, `["name"]` for a field. */
  function PathText(p: Path): (s: string)
    ensures |s| >= 3 && s[0] == '[' && s[|s| - 1] == ']'
    ensures p.Index? <==> Numerals.IsDigit(s[1], 10)
    ensures p.Field? ==> |s| >= 4 && s[1] == '"' && s[|s| - 2] == '"'
  {
    match p
    case Index(n) => "[" + Numerals.ToRadix(n, 10) + "]"
    case Field(name) => "[\"" + name + "\"]"
  }

  /** No two paths render alike, so a rendered location is unambiguous
      step by step. */
  lemma PathTextInjective(p: Path, q: Path)
    requires PathText(p) == PathText(q)
    ensures p == q
  {
    var s := PathText(p);
    if p.Index? && q.Index? {
      assert s[1..|s| - 1] == Numerals.ToRadix(p.n, 10);
      assert s[1..|s| - 1] == Numerals.ToRadix(q.n, 10);
      Numerals.ToRadixInjective(p.n, q.n, 10);
    } else if p.Field? && q.Field? {
      assert s[2..|s| - 2] == p.name;
      assert s[2..|s| - 2] == q.name;
    }
  }

  /** The rendering of a whole path list, step after step. */
  function RenderPaths(ps: seq<Path>): string
  {
    if |ps| == 0 then "" else RenderPaths(ps[..|ps| - 1]) + PathText(ps[|ps| - 1])
  }

  // ---------------------------------------------------------------------
  // Contexts

  /** A location in the input and the value found there, absent when the
      location does not exist or holds null/undefined. */
  datatype Context =
    | Root(value: Option<Value>)
    | Derived(parent: Context, path: Path, value: Option<Value>)

  /** `Context.Root(v)`: the root context of an input. */
  function RootOf(v: Value): Context
  {
    Root(FromNullable(v))
  }

  /** JavaScript member access `v[key]`, with Null for undefined. An index
      on an object reads the field named by the index's decimal text; the
      `length` field of an array or string is its length. */
  function Project(v: Value, p: Path): Value
  {
    match p
    case Index(n) =>
      (match v
       case Arr(items) => if n < |items| then items[n] else Null
       case Str(s) => if n < |s| then Str([s[n]]) else Null
       case Obj(fields) =>
         var key := Numerals.ToRadix(n, 10);
         if key in fields then fields[key] else Null
       case _ => Null)
    case Field(name) =>
      (match v
       case Arr(items) => if name == "length" then Num(|items|) else Null
       case Str(s) => if name == "length" then Num(|s|) else Null
       case Obj(fields) => if name in fields then fields[name] else Null
       case _ => Null)
  }

  /** `context.derive(path)`: the child location one step further. Deriving
      never fails; a step that leads nowhere, or starts from an absent
      value, gives an absent value. */
  function Derive(c: Context, p: Path): (d: Context)
    ensures d.Derived? && d.parent == c && d.path == p
    ensures c.value.None? ==> d.value.None?
    ensures d.value.Some? <==> c.value.Some? && Project(c.value.value, p) != Null
    ensures d.value.Some? ==> d.value.value == Project(c.value.value, p)
  {
    Derived(c, p, if c.value.Some? then FromNullable(Project(c.value.value, p)) else None)
  }

  /** Derives along every step of `ps` in turn. */
  function DeriveAll(c: Context, ps: seq<Path>): Context
    decreases |ps|
  {
    if |ps| == 0 then c else DeriveAll(Derive(c, ps[0]), ps[1..])
  }

  /** The steps from the root (exclusive) to this location. */
  function PathList(c: Context): (ps: seq<Path>)
    ensures c.Root? <==> |ps| == 0
    ensures c.Derived? ==> ps[|ps| - 1] == c.path
  {
    match c
    case Root(_) => []
    case Derived(parent, path, _) => PathList(parent) + [path]
  }

  /** Deriving by one step appends that step to the path list. */
  lemma PathListDerive(c: Context, p: Path)
    ensures PathList(Derive(c, p)) == PathList(c) + [p]
  {
  }

  /** The path list of a context reached by deriving along `ps` is the
      starting context's list followed by `ps`; from a root it is `ps`
      itself, so its length is the number of derive steps. */
  lemma {:induction false} PathListDeriveAll(c: Context, ps: seq<Path>)
    ensures PathList(DeriveAll(c, ps)) == PathList(c) + ps
    decreases |ps|
  {
    if |ps| > 0 {
      PathListDeriveAll(Derive(c, ps[0]), ps[1..]);
      assert PathList(c) + [ps[0]] + ps[1..] == PathList(c) + ps;
    }
  }

  /** Once a value is absent, every location below it is absent too. */
  lemma {:induction false} DeriveAllAbsent(c: Context, ps: seq<Path>)
    requires c.value.None?
    ensures DeriveAll(c, ps).value.None?
    decreases |ps|
  {
    if |ps| > 0 {
      DeriveAllAbsent(Derive(c, ps[0]), ps[1..]);
    }
  }

  // ---------------------------------------------------------------------
  // Reasons and results

  /** One failure record: where it happened and why. */
  datatype Reason = Reason(context: Context, message: string)

  /** The location part of `Reason.toString`. */
  function Location(r: Reason): string
  {
    RenderPaths(PathList(r.context))
  }

  /** A failure always carries at least one reason. */
  type Reasons = rs: seq<Reason> | |rs| > 0 witness [Reason(Root(None), "")]

  /** The two-branch validation result; failures accumulate as a list. */
  datatype Result<+T> = Success(value: T) | Failure(reasons: Reasons)

  /** The reasons of a result: none for a success. */
  function FailuresOf<T>(r: Result<T>): (rs: seq<Reason>)
    ensures |rs| == 0 <==> r.Success?
  {
    match r
    case Success(_) => []
    case Failure(rs) => rs
  }

  /** `Validation#map`. */
  function MapResult<A, B>(r: Result<A>, f: A -> B): Result<B>
  {
    match r
    case Success(a) => Success(f(a))
    case Failure(rs) => Failure(rs)
  }

  /** `Validation#ap`: the function side's reasons come first, then the
      argument side's. */
  function ApResult<A, B>(rf: Result<A -> B>, ra: Result<A>): (r: Result<B>)
    ensures r.Success? <==> rf.Success? && ra.Success?
    ensures r.Success? ==> r.value == rf.value(ra.value)
    ensures FailuresOf(r) == FailuresOf(rf) + FailuresOf(ra)
  {
    match rf
    case Success(f) =>
      (match ra
       case Success(a) => Success(f(a))
       case Failure(rs) => Failure(rs))
    case Failure(rs1) =>
      (match ra
       case Success(_) => Failure(rs1)
       case Failure(rs2) => Failure(rs1 + rs2))
  }

  // ---------------------------------------------------------------------
  // Processors

  /** A pure function from a location to a result. */
  datatype Processor<T> = Processor(run: Context -> Result<T>)

  /** `p.map(f)`: transforms a success; a failure passes through. */
  function Map<A, B>(p: Processor<A>, f: A -> B): (q: Processor<B>)
    ensures forall c :: q.run(c).Success? <==> p.run(c).Success?
    ensures forall c :: p.run(c).Success? ==> q.run(c).value == f(p.run(c).value)
    ensures forall c :: p.run(c).Failure? ==> q.run(c).reasons == p.run(c).reasons
  {
    Processor(c => MapResult(p.run(c), f))
  }

  /** `Processor.of(x)`: ignores its context and succeeds with `x`. */
  function Of<T>(x: T): (q: Processor<T>)
    ensures forall c :: q.run(c).Success? && q.run(c).value == x
  {
    Processor(_ => Success(x))
  }

  /** `pf.ap(pa)`: runs both on the same context; succeeds only when both
      do, and otherwise reports every reason of both, in order. */
  function Ap<A, B>(pf: Processor<A -> B>, pa: Processor<A>): (q: Processor<B>)
    ensures forall c :: q.run(c).Success? <==> pf.run(c).Success? && pa.run(c).Success?
    ensures forall c :: q.run(c).Success? ==> q.run(c).value == pf.run(c).value(pa.run(c).value)
    ensures forall c :: FailuresOf(q.run(c)) == FailuresOf(pf.run(c)) + FailuresOf(pa.run(c))
  {
    Processor(c => ApResult(pf.run(c), pa.run(c)))
  }

  /** `p.chain(f)`: a failure of `p` is the answer, and `f` is not
      consulted; otherwise `f` of the value runs on the same context. */
  function Chain<A, B>(p: Processor<A>, f: A -> Processor<B>): (q: Processor<B>)
    ensures forall c :: p.run(c).Failure? ==> q.run(c) == Failure(p.run(c).reasons)
    ensures forall c :: p.run(c).Success? ==> q.run(c) == f(p.run(c).value).run(c)
  {
    Processor(c =>
      match p.run(c)
      case Failure(rs) => Failure(rs)
      case Success(v) => f(v).run(c))
  }

  /** `p.orElse(other)`: a success of `p`, or else whatever `other` gives on
      the same context; `p`'s reasons are dropped. */
  function OrElse<T>(p: Processor<T>, other: Processor<T>): (q: Processor<T>)
    ensures forall c :: p.run(c).Success? ==> q.run(c) == p.run(c)
    ensures forall c :: p.run(c).Failure? ==> q.run(c) == other.run(c)
  {
    Processor(c =>
      match p.run(c)
      case Success(v) => Success(v)
      case Failure(_) => other.run(c))
  }

  /** `p.andThen(other)`: both run; the second's value is kept. */
  function AndThen<A, B>(p: Processor<A>, other: Processor<B>): (q: Processor<B>)
    ensures forall c :: q.run(c).Success? <==> p.run(c).Success? && other.run(c).Success?
    ensures forall c :: q.run(c).Success? ==> q.run(c).value == other.run(c).value
    ensures forall c :: FailuresOf(q.run(c)) == FailuresOf(p.run(c)) + FailuresOf(other.run(c))
  {
    Ap(Ap(Of((_: A) => (b: B) => b), p), other)
  }

  /** `p.onlyIf(other)`: both run; the first's value is kept. */
  function OnlyIf<A, B>(p: Processor<A>, other: Processor<B>): (q: Processor<A>)
    ensures forall c :: q.run(c).Success? <==> p.run(c).Success? && other.run(c).Success?
    ensures forall c :: q.run(c).Success? ==> q.run(c).value == p.run(c).value
    ensures forall c :: FailuresOf(q.run(c)) == FailuresOf(p.run(c)) + FailuresOf(other.run(c))
  {
    Ap(Ap(Of((a: A) => (_: B) => a), p), other)
  }

  /** `p.errorMessage(msg)`: a success passes; any failure becomes exactly
      one reason carrying `msg` at the same context. */
  function ErrorMessage<T>(p: Processor<T>, msg: string): (q: Processor<T>)
    ensures forall c :: p.run(c).Success? ==> q.run(c) == p.run(c)
    ensures forall c :: p.run(c).Failure? ==> q.run(c) == Failure([Reason(c, msg)])
  {
    Processor(c =>
      match p.run(c)
      case Success(v) => Success(v)
      case Failure(_) => Failure([Reason(c, msg)]))
  }

  /** `p.asks(path)`: runs `p` one step further down. */
  function Asks<T>(p: Processor<T>, path: Path): (q: Processor<T>)
    ensures forall c :: q.run(c) == p.run(Derive(c, path))
  {
    Processor(c => p.run(Derive(c, path)))
  }

  /** `Processor.identity`: the possibly absent value at the context. */
  function Identity(): (q: Processor<Option<Value>>)
    ensures forall c :: q.run(c) == Success(c.value)
  {
    Processor((c: Context) => Success(c.value))
  }
}
