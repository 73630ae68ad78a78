/**
 * The dynamically typed values that the inventory passes between its stages:
 * Python's None, booleans, integers, strings, lists, sets and (insertion-ordered)
 * dicts, plus the two node-reference objects of the graph layer, `UID(...)` and
 * `NewID(...)`. A Python dict is an association list whose keys are kept in
 * insertion order; `Put` replaces a present key in place and appends a new one,
 * exactly as item assignment on a dict does.
 */
module Values {

  datatype Option<+T> = None | Some(value: T)

  /** The exceptions the modelled code raises or lets escape. */
  datatype Error =
    | TypeError
    | KeyError
    | IndexError
    | ValueError
    | AttributeError
    | UnboundLocalError
    | AssertionError
    | ValidationError(msg: string)
    | PermissionError(msg: string)

  /** The outcome of a step that may raise; `:-` propagates the exception. */
  datatype Result<+T> = Ok(value: T) | Err(error: Error) {
    predicate IsFailure() {
      Err?
    }

    function PropagateFailure<U>(): Result<U>
      requires Err?
    {
      Err(error)
    }

    function Extract(): T
      requires Ok?
    {
      value
    }
  }

  datatype Value =
    | NoneV
    | BoolV(b: bool)
    | IntV(i: int)
    | StrV(s: string)
    | ListV(items: seq<Value>)
    | SetV(elems: set<Value>)
    | DictV(d: Dict)
    /** `UID(uid, facets=...)`: a reference to an existing node */
    | UidV(uid: Value, facets: Dict)
    /** `NewID(...)`: a blank-node placeholder for a node created by the mutation */
    | NewIdV(id: Value)

  type Dict = seq<(string, Value)>

  // ---------------------------------------------------------------------------
  // Dict operations
  // ---------------------------------------------------------------------------

  function Keys(d: Dict): set<string>
  {
    if d == [] then {} else {d[0].0} + Keys(d[1..])
  }

  /** `d.get(k)`, as an option */
  function Get(d: Dict, k: string): (r: Option<Value>)
    ensures r.Some? <==> k in Keys(d)
  {
    if d == [] then None
    else if d[0].0 == k then Some(d[0].1)
    else Get(d[1..], k)
  }

  /** `d.get(k)` finds the first entry whose key is `k`. */
  lemma {:induction false} GetAt(d: Dict, i: nat, k: string)
    requires i < |d| && d[i].0 == k
    requires forall j :: 0 <= j < i ==> d[j].0 != k
    ensures Get(d, k) == Some(d[i].1)
  {
    if i > 0 {
      GetAt(d[1..], i - 1, k);
    }
  }

  /** `d.get(k)`: None when absent */
  function GetOrNone(d: Dict, k: string): Value
  {
    match Get(d, k)
    case Some(v) => v
    case None => NoneV
  }

  /** `d[k] = v` */
  function Put(d: Dict, k: string, v: Value): Dict
  {
    if d == [] then [(k, v)]
    else if d[0].0 == k then [(k, v)] + d[1..]
    else [d[0]] + Put(d[1..], k, v)
  }

  /** After `d[k] = v`, `k` maps to `v` and every other key keeps its value. */
  lemma {:induction false} PutGet(d: Dict, k: string, v: Value)
    ensures Get(Put(d, k, v), k) == Some(v)
    ensures forall k' :: k' != k ==> Get(Put(d, k, v), k') == Get(d, k')
  {
    if d != [] && d[0].0 != k {
      PutGet(d[1..], k, v);
    }
  }

  /** `d[k] = v` adds `k` to the keys: in place when present, at the end otherwise. */
  lemma {:induction false} PutKeys(d: Dict, k: string, v: Value)
    ensures Keys(Put(d, k, v)) == Keys(d) + {k}
    ensures k in Keys(d) ==> |Put(d, k, v)| == |d|
    ensures k !in Keys(d) ==> Put(d, k, v) == d + [(k, v)]
  {
    if d != [] && d[0].0 != k {
      PutKeys(d[1..], k, v);
      assert [d[0]] + (d[1..] + [(k, v)]) == d + [(k, v)];
    }
  }

  /** A second `d[k] = w` undoes the first assignment to `k`. */
  lemma {:induction false} PutPut(d: Dict, k: string, v: Value, w: Value)
    ensures Put(Put(d, k, v), k, w) == Put(d, k, w)
  {
    if d != [] && d[0].0 != k {
      PutPut(d[1..], k, v, w);
      assert ([d[0]] + Put(d[1..], k, v))[1..] == Put(d[1..], k, v);
    }
  }

  /** Assigning a key the value it already has leaves the dict as it was. */
  lemma {:induction false} PutSame(d: Dict, k: string, v: Value)
    requires Get(d, k) == Some(v)
    ensures Put(d, k, v) == d
  {
    if d[0].0 != k {
      PutSame(d[1..], k, v);
    } else {
      assert [(k, v)] + d[1..] == d;
    }
  }

  /** `d.pop(k, None)` */
  function Remove(d: Dict, k: string): (r: Dict)
    ensures Get(r, k) == None
    ensures forall k' :: k' != k ==> Get(r, k') == Get(d, k')
  {
    if d == [] then []
    else if d[0].0 == k then Remove(d[1..], k)
    else [d[0]] + Remove(d[1..], k)
  }

  /** A dict whose keys are pairwise distinct, as every Python dict is. */
  ghost predicate DistinctKeys(d: Dict)
  {
    forall i, j :: 0 <= i < j < |d| ==> d[i].0 != d[j].0
  }

  /** `{**a, **b}`: every key of `b` wins, the other keys of `a` keep their value */
  function Update(a: Dict, b: Dict): (r: Dict)
    decreases |b|
  {
    if b == [] then a else Update(Put(a, b[0].0, b[0].1), b[1..])
  }

  lemma {:induction false} UpdateGet(a: Dict, b: Dict, k: string)
    requires DistinctKeys(b)
    ensures Get(Update(a, b), k) == (if k in Keys(b) then Get(b, k) else Get(a, k))
    decreases |b|
  {
    if b != [] {
      var a' := Put(a, b[0].0, b[0].1);
      PutGet(a, b[0].0, b[0].1);
      UpdateGet(a', b[1..], k);
      assert Update(a, b) == Update(a', b[1..]);
      assert Keys(b) == {b[0].0} + Keys(b[1..]);
      if k == b[0].0 {
        KeyAt(b[1..], k);
      }
    }
  }

  /** A key present in a dict sits at some index. */
  lemma {:induction false} KeyAt(d: Dict, k: string)
    ensures k in Keys(d) <==> exists i :: 0 <= i < |d| && d[i].0 == k
  {
    if d != [] {
      KeyAt(d[1..], k);
      if k in Keys(d[1..]) {
        var i :| 0 <= i < |d| - 1 && d[1..][i].0 == k;
        assert d[i + 1].0 == k;
      }
      if exists i :: 0 <= i < |d| && d[i].0 == k {
        var i :| 0 <= i < |d| && d[i].0 == k;
        if i > 0 { assert d[1..][i - 1].0 == k; }
      }
    }
  }

  // ---------------------------------------------------------------------------
  // Python semantics of values
  // ---------------------------------------------------------------------------

  /** Python truthiness; node references are ordinary objects and thus true */
  predicate Truthy(v: Value)
  {
    match v
    case NoneV => false
    case BoolV(b) => b
    case IntV(i) => i != 0
    case StrV(s) => s != ""
    case ListV(xs) => xs != []
    case SetV(xs) => xs != {}
    case DictV(d) => d != []
    case UidV(_, _) => true
    case NewIdV(_) => true
  }

  /** Python objects that can be set elements */
  predicate Hashable(v: Value)
  {
    !v.ListV? && !v.SetV? && !v.DictV?
  }

  function Chars(s: string): (r: seq<Value>)
    ensures |r| == |s|
    ensures forall i :: 0 <= i < |s| ==> r[i] == StrV([s[i]])
  {
    if s == [] then [] else [StrV([s[0]])] + Chars(s[1..])
  }

  function KeyValues(d: Dict): (r: seq<Value>)
    ensures |r| == |d|
    ensures forall i :: 0 <= i < |d| ==> r[i] == StrV(d[i].0)
  {
    if d == [] then [] else [StrV(d[0].0)] + KeyValues(d[1..])
  }

  /**
   * What a `for` loop visits, in order: list items, the characters of a
   * string, the keys of a dict. Iterating a set (whose order is not defined)
   * and iterating a non-iterable are both None.
   */
  function Iter(v: Value): Option<seq<Value>>
  {
    match v
    case ListV(xs) => Some(xs)
    case StrV(s) => Some(Chars(s))
    case DictV(d) => Some(KeyValues(d))
    case _ => None
  }

  /** The elements `set(v)` would collect, or a TypeError. */
  function Elems(v: Value): (r: Result<set<Value>>)
    ensures r.Ok? ==> forall x :: x in r.value ==> Hashable(x)
  {
    match v
    case SetV(xs) =>
      if forall x :: x in xs ==> Hashable(x) then Ok(xs) else Err(TypeError)
    case _ => ElemsOfIter(Iter(v))
  }

  function ElemsOfIter(it: Option<seq<Value>>): (r: Result<set<Value>>)
    ensures r.Ok? ==> forall x :: x in r.value ==> Hashable(x)
  {
    if it.None? then Err(TypeError)
    else if forall i :: 0 <= i < |it.value| ==> Hashable(it.value[i])
    then Ok(set i | 0 <= i < |it.value| :: it.value[i])
    else Err(TypeError)
  }

  /** `a += b` on the value types the modelled code meets */
  function IAdd(a: Value, b: Value): (r: Result<Value>)
    ensures a.ListV? && b.ListV? ==> r == Ok(ListV(a.items + b.items))
    ensures !a.ListV? && !a.StrV? && !a.IntV? ==> r == Err(TypeError)
  {
    match (a, b)
    case (ListV(xs), ListV(ys)) => Ok(ListV(xs + ys))
    case (ListV(xs), StrV(s)) => Ok(ListV(xs + Chars(s)))
    case (ListV(xs), DictV(d)) => Ok(ListV(xs + KeyValues(d)))
    case (StrV(s), StrV(t)) => Ok(StrV(s + t))
    case (IntV(i), IntV(j)) => Ok(IntV(i + j))
    case _ => Err(TypeError)
  }

  // ---------------------------------------------------------------------------
  // Decimal text of natural numbers: `str(i)` and `int(s)`
  // ---------------------------------------------------------------------------

  function Digit(d: nat): char
    requires d < 10
  {
    "0123456789"[d]
  }

  /** `str(n)` for a natural number */
  function Decimal(n: nat): (s: string)
    ensures |s| >= 1
    ensures n >= 10 ==> |s| >= 2
    ensures forall i :: 0 <= i < |s| ==> '0' <= s[i] <= '9'
    decreases n
  {
    if n < 10 then [Digit(n)] else Decimal(n / 10) + [Digit(n % 10)]
  }

  lemma DigitInjective(a: nat, b: nat)
    requires a < 10 && b < 10 && Digit(a) == Digit(b)
    ensures a == b
  {
  }

  /** Distinct indices have distinct decimal keys. */
  lemma {:induction false} DecimalInjective(a: nat, b: nat)
    requires Decimal(a) == Decimal(b)
    ensures a == b
    decreases a
  {
    var s := Decimal(a);
    if a < 10 && b < 10 {
      DigitInjective(a, b);
    } else if a >= 10 && b >= 10 {
      assert s[|s| - 1] == Digit(a % 10) == Digit(b % 10);
      DigitInjective(a % 10, b % 10);
      assert Decimal(a / 10) == s[..|s| - 1] == Decimal(b / 10);
      DecimalInjective(a / 10, b / 10);
    }
  }

  function DigitValue(c: char): nat
    requires '0' <= c <= '9'
  {
    (c as int - '0' as int) as nat
  }

  /** `int(s)` for a string of decimal digits; anything else is a ValueError */
  function ParseNat(s: string): (r: Result<nat>)
    ensures r.Ok? <==> s != [] && forall i :: 0 <= i < |s| ==> '0' <= s[i] <= '9'
    decreases |s|
  {
    if s == [] then Err(ValueError)
    else if !('0' <= s[|s| - 1] <= '9') then Err(ValueError)
    else if |s| == 1 then Ok(DigitValue(s[0]))
    else match ParseNat(s[..|s| - 1])
      case Ok(p) => Ok(p * 10 + DigitValue(s[|s| - 1]))
      case Err(e) => Err(e)
  }

  lemma DigitRoundTrip(d: nat)
    requires d < 10
    ensures '0' <= Digit(d) <= '9' && DigitValue(Digit(d)) == d
  {
  }

  /** One more digit after a non-empty run of digits multiplies its value by ten and adds it. */
  lemma ParseNatSnoc(prefix: string, c: char)
    requires prefix != [] && '0' <= c <= '9'
    requires ParseNat(prefix).Ok?
    ensures ParseNat(prefix + [c]) == Ok(ParseNat(prefix).value * 10 + DigitValue(c))
  {
    var s := prefix + [c];
    assert s[..|s| - 1] == prefix && s[|s| - 1] == c;
  }

  lemma DivMod10(n: nat)
    ensures n / 10 * 10 + n % 10 == n
  {
  }

  /** `int(str(n)) == n` */
  lemma {:induction false} ParseDecimal(n: nat)
    ensures ParseNat(Decimal(n)) == Ok(n)
    decreases n
  {
    if n >= 10 {
      var q, d := n / 10, n % 10;
      DigitRoundTrip(d);
      ParseDecimal(q);
      ParseNatSnoc(Decimal(q), Digit(d));
      DivMod10(n);
      calc {
        ParseNat(Decimal(n));
        ParseNat(Decimal(q) + [Digit(d)]);
        Ok(q * 10 + d);
      }
    } else {
      DigitRoundTrip(n);
    }
  }

  /** `str(v)` for the scalar values and node references; other values are
      rendered as the empty string (their text is not modelled) */
  function Str(v: Value): string
  {
    match v
    case NoneV => "None"
    case BoolV(b) => if b then "True" else "False"
    case IntV(i) => if i >= 0 then Decimal(i) else "-" + Decimal(-i)
    case StrV(s) => s
    case UidV(u, _) => Str(u)
    case NewIdV(u) => Str(u)
    case _ => ""
  }

  // ---------------------------------------------------------------------------
  // String helpers
  // ---------------------------------------------------------------------------

  predicate StartsWith(s: string, prefix: string)
  {
    |prefix| <= |s| && s[..|prefix|] == prefix
  }

  /** `sep.join(parts)` */
  function Join(parts: seq<string>, sep: string): string
  {
    if parts == [] then ""
    else if |parts| == 1 then parts[0]
    else parts[0] + sep + Join(parts[1..], sep)
  }

  /** `[item for item in xs]` rendered with StrV */
  function StrValues(xs: seq<string>): (r: seq<Value>)
    ensures |r| == |xs|
    ensures forall i :: 0 <= i < |xs| ==> r[i] == StrV(xs[i])
  {
    if xs == [] then [] else [StrV(xs[0])] + StrValues(xs[1..])
  }

  /** `s.split(c)` for a one-character separator */
  function Split(s: string, c: char): (r: seq<string>)
    ensures |r| >= 1
    ensures c in s ==> |r| >= 2
    ensures forall i :: 0 <= i < |r| ==> c !in r[i]
  {
    if s == [] then [""]
    else
      var rest := Split(s[1..], c);
      if s[0] == c then [""] + rest
      else
        assert c in s ==> c in s[1..] by {
          if c in s { var i :| 0 <= i < |s| && s[i] == c; assert s[1..][i - 1] == c; }
        }
        [[s[0]] + rest[0]] + rest[1..]
  }

  /** Joining the pieces of a split with the separator gives back the string. */
  lemma {:induction false} SplitJoin(s: string, c: char)
    ensures Join(Split(s, c), [c]) == s
  {
    if s != [] {
      var rest := Split(s[1..], c);
      SplitJoin(s[1..], c);
      if s[0] == c {
        assert s == [c] + s[1..];
      } else if |rest| == 1 {
        assert s == [s[0]] + s[1..];
      } else {
        var r := Split(s, c);
        assert r[1..] == rest[1..];
        assert Join(rest, [c]) == rest[0] + [c] + Join(rest[1..], [c]);
        assert s == [s[0]] + s[1..];
      }
    }
  }

  /** A piece without the separator splits into itself. */
  lemma {:induction false} SplitNoSep(a: string, c: char)
    requires c !in a
    ensures Split(a, c) == [a]
  {
    if a != [] {
      SplitNoSep(a[1..], c);
      assert a == [a[0]] + a[1..];
    }
  }

  /** The text before the first separator is the first piece. */
  lemma {:induction false} SplitAfter(a: string, c: char, b: string)
    requires c !in a
    ensures Split(a + [c] + b, c) == [a] + Split(b, c)
  {
    if a == [] {
      assert a + [c] + b == [c] + b;
      assert ([c] + b)[1..] == b;
    } else {
      assert (a + [c] + b)[1..] == a[1..] + [c] + b;
      SplitAfter(a[1..], c, b);
      assert a == [a[0]] + a[1..];
    }
  }

  /** Splitting the join of separator-free pieces gives back the pieces. */
  lemma {:induction false} JoinSplit(parts: seq<string>, c: char)
    requires |parts| >= 1
    requires forall i :: 0 <= i < |parts| ==> c !in parts[i]
    ensures Split(Join(parts, [c]), c) == parts
  {
    if |parts| == 1 {
      SplitNoSep(parts[0], c);
    } else {
      JoinSplit(parts[1..], c);
      SplitAfter(parts[0], c, Join(parts[1..], [c]));
    }
  }

  /** `s.replace(c, '')` for a one-character pattern */
  function RemoveChar(s: string, c: char): (r: string)
    ensures c !in r
    ensures |r| <= |s|
    ensures c !in s ==> r == s
    ensures forall x :: x in r ==> x in s
  {
    if s == [] then ""
    else if s[0] == c then RemoveChar(s[1..], c)
    else [s[0]] + RemoveChar(s[1..], c)
  }

  /** Joining two non-empty runs of pieces puts one separator between them. */
  lemma {:induction false} JoinAppend(a: seq<string>, b: seq<string>, sep: string)
    requires |a| >= 1 && |b| >= 1
    ensures Join(a + b, sep) == Join(a, sep) + sep + Join(b, sep)
  {
    if |a| == 1 {
      assert (a + b)[1..] == b;
    } else {
      assert (a + b)[1..] == a[1..] + b;
      JoinAppend(a[1..], b, sep);
    }
  }

  /** Every character of a join comes from a piece or from the separator. */
  lemma {:induction false} JoinChars(parts: seq<string>, sep: string, x: char)
    requires x !in sep
    requires forall i :: 0 <= i < |parts| ==> x !in parts[i]
    ensures x !in Join(parts, sep)
  {
    if |parts| > 1 {
      JoinChars(parts[1..], sep, x);
    }
  }

  lemma {:induction false} RemoveCharAppend(a: string, b: string, c: char)
    ensures RemoveChar(a + b, c) == RemoveChar(a, c) + RemoveChar(b, c)
  {
    if a == [] {
      assert a + b == b;
    } else {
      assert (a + b)[1..] == a[1..] + b;
      RemoveCharAppend(a[1..], b, c);
    }
  }

  // ---------------------------------------------------------------------------
  // Applying a step that may raise to every element, as a comprehension does
  // ---------------------------------------------------------------------------

  /** `[f(x) for x in xs]` where `f` may raise: the first exception propagates. */
  function MapResult<A, B>(f: A -> Result<B>, xs: seq<A>): (r: Result<seq<B>>)
    ensures r.Ok? ==> |r.value| == |xs|
  {
    if xs == [] then Ok([])
    else
      var first :- f(xs[0]);
      var rest :- MapResult(f, xs[1..]);
      Ok([first] + rest)
  }

  lemma {:induction false} MapResultAppend<A, B>(f: A -> Result<B>, xs: seq<A>, ys: seq<A>)
    requires MapResult(f, xs).Ok? && MapResult(f, ys).Ok?
    ensures MapResult(f, xs + ys) == Ok(MapResult(f, xs).value + MapResult(f, ys).value)
  {
    if xs == [] {
      assert xs + ys == ys;
      assert MapResult(f, xs).value + MapResult(f, ys).value == MapResult(f, ys).value;
    } else {
      assert (xs + ys)[0] == xs[0];
      assert (xs + ys)[1..] == xs[1..] + ys;
      MapResultAppend(f, xs[1..], ys);
      var c, cs, ds := f(xs[0]).value, MapResult(f, xs[1..]).value, MapResult(f, ys).value;
      assert MapResult(f, xs).value == [c] + cs;
      assert [c] + (cs + ds) == ([c] + cs) + ds;
    }
  }

  /** Extending a successful prefix by one element: its failure, or its result appended. */
  lemma {:induction false} MapResultSnoc<A, B>(f: A -> Result<B>, xs: seq<A>, x: A)
    requires MapResult(f, xs).Ok?
    ensures f(x).Err? ==> MapResult(f, xs + [x]) == Err(f(x).error)
    ensures f(x).Ok? ==> MapResult(f, xs + [x]) == Ok(MapResult(f, xs).value + [f(x).value])
  {
    if xs == [] {
      assert xs + [x] == [x];
      assert [x][1..] == [];
      if f(x).Ok? {
        assert MapResult(f, [x]) == Ok([f(x).value] + []);
        assert [f(x).value] + [] == [] + [f(x).value];
      }
    } else {
      assert (xs + [x])[0] == xs[0];
      assert (xs + [x])[1..] == xs[1..] + [x];
      MapResultSnoc(f, xs[1..], x);
      if f(x).Ok? {
        var c, cs := f(xs[0]).value, MapResult(f, xs[1..]).value;
        assert [c] + (cs + [f(x).value]) == ([c] + cs) + [f(x).value];
      }
    }
  }

  /** Once a prefix fails, whatever follows it does not change the failure. */
  lemma {:induction false} MapResultErrPrefix<A, B>(f: A -> Result<B>, xs: seq<A>, ys: seq<A>)
    requires MapResult(f, xs).Err?
    ensures MapResult(f, xs + ys) == MapResult(f, xs)
  {
    assert (xs + ys)[0] == xs[0];
    if f(xs[0]).Ok? {
      assert (xs + ys)[1..] == xs[1..] + ys;
      MapResultErrPrefix(f, xs[1..], ys);
    }
  }

  /** The result fails with the exception of the first element that fails. */
  lemma {:induction false} MapResultFirstErr<A, B>(f: A -> Result<B>, xs: seq<A>, k: nat)
    requires k < |xs|
    requires forall i :: 0 <= i < k ==> f(xs[i]).Ok?
    requires f(xs[k]).Err?
    ensures MapResult(f, xs) == Err(f(xs[k]).error)
  {
    if k > 0 {
      MapResultFirstErr(f, xs[1..], k - 1);
    }
  }

  /** When every element succeeds, so does the whole. */
  lemma {:induction false} MapResultOk<A, B>(f: A -> Result<B>, xs: seq<A>)
    requires forall i :: 0 <= i < |xs| ==> f(xs[i]).Ok?
    ensures MapResult(f, xs).Ok?
  {
    if xs != [] {
      MapResultOk(f, xs[1..]);
    }
  }

  // ---------------------------------------------------------------------------
  // A loop that updates a state with a step that may raise
  // ---------------------------------------------------------------------------

  /** `for x in xs: s = step(s, x)` where `step` may raise: the first exception propagates. */
  function Fold<S, A>(step: (S, A) -> Result<S>, s: S, xs: seq<A>): Result<S>
    decreases |xs|
  {
    if xs == [] then Ok(s)
    else
      var t :- Fold(step, s, xs[..|xs| - 1]);
      step(t, xs[|xs| - 1])
  }

  /** One more iteration: the step applied to the state the prefix left. */
  lemma FoldSnoc<S, A>(step: (S, A) -> Result<S>, s: S, xs: seq<A>, x: A)
    requires Fold(step, s, xs).Ok?
    ensures Fold(step, s, xs + [x]) == step(Fold(step, s, xs).value, x)
  {
    assert (xs + [x])[..|xs|] == xs;
  }

  /** Once a prefix of the loop raises, the whole loop raises the same exception. */
  lemma {:induction false} FoldErrPrefix<S, A>(step: (S, A) -> Result<S>, s: S, xs: seq<A>, n: nat)
    requires n <= |xs| && Fold(step, s, xs[..n]).Err?
    ensures Fold(step, s, xs) == Fold(step, s, xs[..n])
    decreases |xs|
  {
    if n < |xs| {
      var init := xs[..|xs| - 1];
      assert init[..n] == xs[..n];
      FoldErrPrefix(step, s, init, n);
    } else {
      assert xs[..n] == xs;
    }
  }
}
