/**
 * The three tool handlers of `tools/call` and the Python operations they perform on
 * the caller's arguments.  An exception a handler raises is a `Fault`; the dispatcher
 * turns it into a server error carrying the exception's text.
 */
module Tools {
  import opened Wrappers
  import opened Json
  import opened Dicts
  import opened Store

  /** The exceptions a tool handler can raise. */
  datatype Fault = KeyError(key: string) | TypeError(text: string) | ValueError(text: string) | OverflowError(text: string)

  /** `str(e)`: a KeyError shows its key in quotes, the others their message. */
  function FaultText(f: Fault): string {
    match f
    case KeyError(k) => "'" + k + "'"
    case TypeError(t) => t
    case ValueError(t) => t
    case OverflowError(t) => t
  }

  /** `n // base ** k`, by `k` divisions. */
  function DivPow(n: nat, base: nat, k: nat): nat
    requires base > 0
    decreases k
  {
    if k == 0 then n else DivPow(n / base, base, k - 1)
  }

  /** `base ** k`. */
  function Pow(base: nat, k: nat): nat
    decreases k
  {
    if k == 0 then 1 else base * Pow(base, k - 1)
  }

  /** Floor division by `base` stays below `m` exactly when `n` stays below `base * m`. */
  lemma DivBelow(n: nat, base: nat, m: nat)
    requires base > 0
    ensures n / base < m <==> n < base * m
  {
    var q, r := n / base, n % base;
    assert n == base * q + r && 0 <= r < base;
    if q < m {
      assert q + 1 <= m;
      assert base * (q + 1) <= base * m;
    } else {
      assert base * m <= base * q;
    }
  }

  /** `n // base ** k` stays below `m` exactly when `n` stays below `m * base ** k`. */
  lemma {:induction false} DivPowBelow(n: nat, base: nat, k: nat, m: nat)
    requires base > 0
    ensures DivPow(n, base, k) < m <==> n < m * Pow(base, k)
    decreases k
  {
    if k > 0 {
      var p := Pow(base, k - 1);
      assert DivPow(n, base, k) == DivPow(n / base, base, k - 1) && Pow(base, k) == base * p;
      DivPowBelow(n / base, base, k - 1, m);
      DivBelow(n, base, m * p);
      MulSwap(base, m, p);
    }
  }

  lemma MulSwap(a: nat, b: nat, c: nat)
    ensures a * (b * c) == b * (a * c)
  {
  }

  function Abs(n: int): nat {
    if n < 0 then -n else n
  }

  /**
   * Converting an `int` to a double rounds it to 53 significant bits, half to even;
   * an int whose magnitude is at least 2^1024 - 2^970 = (2^54 - 1) * 2^970 rounds to
   * 2^1024 and overflows.
   */
  predicate FitsDouble(n: int) {
    DivPow(Abs(n), 2, 970) < 0x3F_FFFF_FFFF_FFFF
  }

  /** `FitsDouble` is the bound |n| < (2^54 - 1) * 2^970. */
  lemma FitsDoubleBound(n: int)
    ensures FitsDouble(n) <==> Abs(n) < (Pow(2, 54) - 1) * Pow(2, 970)
  {
    DivPowBelow(Abs(n), 2, 970, 0x3F_FFFF_FFFF_FFFF);
    PowOf2At54();
  }

  lemma PowOf2At54()
    ensures Pow(2, 54) == 0x40_0000_0000_0000
  {
    assert Pow(2, 9) == 512;
    assert Pow(2, 18) == 512 * 512 by { PowAdd(2, 9, 9); }
    assert Pow(2, 36) == Pow(2, 18) * Pow(2, 18) by { PowAdd(2, 18, 18); }
    PowAdd(2, 36, 18);
  }

  lemma {:induction false} PowAdd(base: nat, i: nat, j: nat)
    ensures Pow(base, i + j) == Pow(base, i) * Pow(base, j)
    decreases i
  {
    if i > 0 {
      PowAdd(base, i - 1, j);
      assert Pow(base, i + j) == base * Pow(base, i - 1 + j);
    }
  }

  const FLOAT_OVERFLOW := "int too large to convert to float"

  /** The default limit on the number of decimal digits when an `int` is converted to text. */
  const MAX_STR_DIGITS: nat := 4300

  /** `n` has at most `MAX_STR_DIGITS` decimal digits. */
  predicate FitsDigits(n: int) {
    DivPow(Abs(n), 10, MAX_STR_DIGITS) == 0
  }

  /** `FitsDigits` is the bound |n| < 10^4300, fewer than 4301 digits. */
  lemma FitsDigitsBound(n: int)
    ensures FitsDigits(n) <==> Abs(n) < Pow(10, MAX_STR_DIGITS)
  {
    DivPowBelow(Abs(n), 10, MAX_STR_DIGITS, 1);
  }

  const DIGITS_LIMIT :=
    "Exceeds the limit (4300 digits) for integer string conversion; use sys.set_int_max_str_digits() to increase the limit"

  /**
   * `json.dumps` applied to a tool's value, as the debug line after a tool call does:
   * an integer with more than `MAX_STR_DIGITS` digits cannot be written out.
   */
  function Encodable(v: Value): (r: Result<Value, Fault>)
    ensures r.Ok? <==> !v.Int? || Abs(v.i) < Pow(10, MAX_STR_DIGITS)
    ensures r.Ok? ==> r.value == v
    ensures r.Err? ==> r.error == ValueError(DIGITS_LIMIT)
  {
    if v.Int? then
      FitsDigitsBound(v.i);
      if FitsDigits(v.i) then Ok(v) else Err(ValueError(DIGITS_LIMIT))
    else Ok(v)
  }

  /** `container[key]` for a string key. */
  function Subscript(container: Value, key: string): Result<Value, Fault> {
    match container
    case Obj(m) => if key in m then Ok(m[key]) else Err(KeyError(key))
    case Arr(_) => Err(TypeError("list indices must be integers or slices, not str"))
    case Str(_) => Err(TypeError("string indices must be integers, not 'str'"))
    case _ => Err(TypeError("'" + TypeName(container) + "' object is not subscriptable"))
  }

  /**
   * Python's `+` on two decoded values; `bool` counts as an integer, and an integer
   * added to a float is first converted to a float.
   */
  function Add(x: Value, y: Value): (r: Result<Value, Fault>)
    ensures x.Int? && y.Int? ==> r == Ok(Int(x.i + y.i))
    ensures x.Float? && y.Float? ==> r == Ok(Float(x.r + y.r))
    ensures (x.Float? && y.Int? && !FitsDouble(y.i)) || (x.Int? && !FitsDouble(x.i) && y.Float?) ==>
      r == Err(OverflowError(FLOAT_OVERFLOW))
    ensures (x.Float? && y.Int? && FitsDouble(y.i)) ==> r == Ok(Float(x.r + y.i as real))
    ensures (x.Int? && FitsDouble(x.i) && y.Float?) ==> r == Ok(Float(x.i as real + y.r))
    ensures x.Str? && y.Str? ==> r == Ok(Str(x.s + y.s))
    ensures (x.Null? || y.Null? || x.Obj? || y.Obj?) ==> r.Err?
  {
    if IsInteger(x) && IsInteger(y) then Ok(Int(AsInt(x) + AsInt(y)))
    else if IsNumber(x) && IsNumber(y) then
      // a bool is 0 or 1, which always converts
      if (x.Int? && !FitsDouble(x.i)) || (y.Int? && !FitsDouble(y.i)) then Err(OverflowError(FLOAT_OVERFLOW))
      else Ok(Float(AsReal(x) + AsReal(y)))
    else if x.Str? && y.Str? then Ok(Str(x.s + y.s))
    else if x.Arr? && y.Arr? then Ok(Arr(x.items + y.items))
    else if x.Str? then Err(TypeError("can only concatenate str (not \"" + TypeName(y) + "\") to str"))
    else if x.Arr? then Err(TypeError("can only concatenate list (not \"" + TypeName(y) + "\") to list"))
    else Err(TypeError("unsupported operand type(s) for +: '" + TypeName(x) + "' and '" + TypeName(y) + "'"))
  }

  /** An `int` or a `bool`, which Python adds as 0 and 1. */
  predicate IsInteger(v: Value) {
    v.Int? || v.Bool?
  }

  /** A value Python adds numerically. */
  predicate IsNumber(v: Value) {
    IsInteger(v) || v.Float?
  }

  /** The integer value of an `int` or `bool`. */
  function AsInt(v: Value): int
    requires IsInteger(v)
  {
    if v.Int? then v.i else if v.b then 1 else 0
  }

  /** The numeric value of a number. */
  function AsReal(v: Value): real
    requires IsNumber(v)
  {
    if v.Float? then v.r else AsInt(v) as real
  }

  /** `prefix + v` for a string prefix: only a string can be appended. */
  function Concat(prefix: string, v: Value): Result<string, Fault> {
    if v.Str? then Ok(prefix + v.s) else Err(TypeError("can only concatenate str (not \"" + TypeName(v) + "\") to str"))
  }

  /** `add_numbers`: `args["a"] + args["b"]`, evaluated left to right. */
  function AddNumbers(args: Value): (r: Result<Value, Fault>)
    ensures r.Ok? ==> args.Obj? && "a" in args.fields && "b" in args.fields
    ensures args.Obj? && "a" !in args.fields ==> r == Err(KeyError("a"))
    ensures args.Obj? && "a" in args.fields && "b" !in args.fields ==> r == Err(KeyError("b"))
    ensures args.Obj? && "a" in args.fields && "b" in args.fields && args.fields["a"].Int? && args.fields["b"].Int?
      ==> r == Ok(Int(args.fields["a"].i + args.fields["b"].i))
  {
    match Subscript(args, "a")
    case Err(f) => Err(f)
    case Ok(a) =>
      match Subscript(args, "b")
      case Err(f) => Err(f)
      case Ok(b) => Add(a, b)
  }

  /** The casing belongs to the well the caller named (`c['well_id'] == wanted`). */
  predicate InWell(c: Record, wanted: Value) {
    c.wellId.Some? && Str(c.wellId.value) == wanted
  }

  /** Every casing has a `well_id` field. */
  predicate AllHaveWell(cs: seq<Record>) {
    forall i :: 0 <= i < |cs| ==> cs[i].wellId.Some?
  }

  /** The casings of `cs` in the named well, in their order in `cs`. */
  function InWellOf(cs: seq<Record>, wanted: Value): (r: seq<Record>)
    ensures |r| <= |cs|
    ensures forall c :: c in r <==> c in cs && InWell(c, wanted)
  {
    if cs == [] then []
    else (if InWell(cs[0], wanted) then [cs[0]] else []) + InWellOf(cs[1..], wanted)
  }

  /**
   * `[c for c in cs if c['well_id'] == args["well_id"]]`: for each casing in turn its
   * `well_id` is read, then the argument; the first failing read ends the comprehension.
   */
  function Matching(cs: seq<Record>, wanted: Result<Value, Fault>): (r: Result<seq<Record>, Fault>)
    ensures cs != [] && cs[0].wellId.None? ==> r == Err(KeyError("well_id"))
    ensures cs != [] && cs[0].wellId.Some? && wanted.Err? ==> r == Err(wanted.error)
    ensures wanted.Ok? && AllHaveWell(cs) ==> r == Ok(InWellOf(cs, wanted.value))
    ensures wanted.Ok? && !AllHaveWell(cs) ==> r == Err(KeyError("well_id"))
  {
    if cs == [] then Ok([])
    else if cs[0].wellId.None? then Err(KeyError("well_id"))
    else if wanted.Err? then Err(wanted.error)
    else
      match Matching(cs[1..], wanted)
      case Err(f) =>
        assert !AllHaveWell(cs[1..]);
        assert !AllHaveWell(cs) by { var i :| 0 <= i < |cs[1..]| && cs[1..][i].wellId.None?; assert cs[i + 1] == cs[1..][i]; }
        Err(f)
      case Ok(rest) =>
        assert AllHaveWell(cs) by {
          assert forall i :: 1 <= i < |cs| ==> cs[i] == cs[1..][i - 1];
        }
        Ok((if InWell(cs[0], wanted.value) then [cs[0]] else []) + rest)
  }

  /**
   * `get_casings_for_well`: the matching casings, or, when there are none, the
   * ValueError "No casings found for well " + the argument.
   */
  function CasingsForWell(casings: seq<Record>, args: Value): (r: Result<Value, Fault>)
    ensures args.Obj? && "well_id" in args.fields && args.fields["well_id"].Str? && AllHaveWell(casings) ==>
      var w := args.fields["well_id"];
      (InWellOf(casings, w) != [] ==> r == Ok(ListJson(InWellOf(casings, w)))) &&
      (InWellOf(casings, w) == [] ==> r == Err(ValueError("No casings found for well " + w.s)))
    ensures args.Obj? && "well_id" !in args.fields ==> r == Err(KeyError("well_id"))
  {
    var wanted := Subscript(args, "well_id");
    match Matching(casings, wanted)
    case Err(f) => Err(f)
    case Ok(found) =>
      if found != [] then Ok(ListJson(found))
      else
        match wanted
        case Err(f) => Err(f)
        case Ok(v) =>
          match Concat("No casings found for well ", v)
          case Err(f) => Err(f)
          case Ok(message) => Err(ValueError(message))
  }

  /** `list_all_wells`: every well, in store order; the arguments are not looked at. */
  function ListAllWells(wells: Dict<Record>): (r: Result<Value, Fault>)
    requires wells.Valid()
    ensures r.Ok? && r.value.Arr? && |r.value.items| == |wells.keys|
    ensures forall k :: k in wells.entries ==> ToJson(wells.entries[k]) in r.value.items
  {
    Ok(ListJson(Values(wells)))
  }
}
