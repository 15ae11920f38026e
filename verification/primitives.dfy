/** The shared validation primitives of the schema layer (agents/schema.py):
    the numeric limits, saturating `clamp`, the runtime-asset path check and
    the palette filter. Every schema record validates its fields with these. */
module Primitives {
  import opened Wrappers

  const SchemaVersion: string := "1.0"
  const MaxParticleRate: int := 100000
  const MaxBurstCount: int := 100000
  const MaxWindSpeed: real := 400.0
  const MaxVortexSpeed: real := 500.0
  const MaxTornadoRadius: real := 0.5
  const MaxAccumulationHeight: real := 512.0
  const MaxExportDuration: real := 120.0
  const MaxExportResolution: int := 4096
  const TwoTo32: int := 0x1_0000_0000

  /** The namespace every runtime asset path must live under. */
  const RuntimePrefix: string := "res://runtime/"

  /** A float as the schema layer receives it: a real number or NaN.
      Infinities are not modelled. */
  datatype Num = NaN | Val(x: real)

  function Abs(x: real): real {
    if x < 0.0 then -x else x
  }

  function AbsInt(n: int): nat {
    if n < 0 then -n else n
  }

  /** `x` satisfies the optional bounds; a missing bound constrains nothing. */
  predicate InBounds(x: real, lo: Option<real>, hi: Option<real>) {
    (lo.None? || lo.value <= x) && (hi.None? || x <= hi.value)
  }

  /** The bounds describe a non-empty interval. */
  predicate Ordered(lo: Option<real>, hi: Option<real>) {
    lo.None? || hi.None? || lo.value <= hi.value
  }

  /** `r` is the point of the interval closest to `x`. */
  ghost predicate IsNearest(r: real, x: real, lo: Option<real>, hi: Option<real>) {
    && InBounds(r, lo, hi)
    && forall y :: InBounds(y, lo, hi) ==> Abs(r - x) <= Abs(y - x)
  }

  predicate InRange(n: int, lo: int, hi: int) {
    lo <= n <= hi
  }

  /** `r` is the integer of [lo, hi] closest to `n`. */
  ghost predicate IsNearestInt(r: int, n: int, lo: int, hi: int) {
    && InRange(r, lo, hi)
    && forall m :: InRange(m, lo, hi) ==> AbsInt(r - n) <= AbsInt(m - n)
  }

  /** `clamp(value, min_value=lo, max_value=hi)`: NaN is rejected whatever the
      bounds; otherwise the value saturates into the interval. The lower bound
      is applied first and the upper bound last, so when the bounds cross the
      upper bound wins. */
  function Clamp(v: Num, lo: Option<real>, hi: Option<real>): (r: Result<real>)
    ensures r.Failure? <==> v.NaN?
    ensures r.Success? && Ordered(lo, hi) ==> IsNearest(r.value, v.x, lo, hi)
    ensures r.Success? && InBounds(v.x, lo, hi) ==> r.value == v.x
    ensures r.Success? && hi.Some? ==> r.value <= hi.value
    ensures r.Success? && !Ordered(lo, hi) ==> r.value == hi.value
  {
    match v
    case NaN => Failure("value cannot be NaN")
    case Val(x) =>
      var raised := if lo.Some? && x < lo.value then lo.value else x;
      Success(if hi.Some? && raised > hi.value then hi.value else raised)
  }

  /** `int(clamp(float(n), min_value=lo, max_value=hi))` on an integer field:
      an integer never is NaN, so this never fails here (the overflow of
      `float(n)` for huge integers is outside the model). */
  function ClampInt(n: int, lo: int, hi: int): (r: int)
    ensures lo <= hi ==> IsNearestInt(r, n, lo, hi)
    ensures InRange(n, lo, hi) ==> r == n
    ensures r <= hi
    ensures lo > hi ==> r == hi
  {
    var raised := if n < lo then lo else n;
    if raised > hi then hi else raised
  }

  /** The integer clamp is the real clamp on integral inputs and bounds: the
      float round trip `int(clamp(float(n)))` loses nothing. */
  lemma ClampIntIsClamp(n: int, lo: int, hi: int)
    ensures Clamp(Val(n as real), Some(lo as real), Some(hi as real)) == Success(ClampInt(n, lo, hi) as real)
  {
  }

  /** Clamping a clamped value changes nothing. */
  lemma ClampIdempotent(v: Num, lo: Option<real>, hi: Option<real>)
    requires v.Val?
    ensures Clamp(Val(Clamp(v, lo, hi).value), lo, hi) == Clamp(v, lo, hi)
  {
  }

  /** Two clamps with a common lower bound act as one clamp to the tighter
      upper bound. */
  lemma ClampTwice(x: real, lo: real, hi1: real, hi2: real)
    requires lo <= hi1 && lo <= hi2
    ensures Clamp(Val(Clamp(Val(x), Some(lo), Some(hi1)).value), Some(lo), Some(hi2))
         == Clamp(Val(x), Some(lo), Some(if hi1 <= hi2 then hi1 else hi2))
  {
  }

  /** `[clamp(c, min_value=lo, max_value=hi) for c in xs]`: fails if any
      element is NaN; otherwise every element is clamped in place. */
  function ClampEach(xs: seq<Num>, lo: real, hi: real): (r: Result<seq<real>>)
    ensures r.Failure? <==> exists i :: 0 <= i < |xs| && xs[i].NaN?
    ensures r.Success? ==> |r.value| == |xs|
    ensures r.Success? ==> forall i :: 0 <= i < |xs| ==> Clamp(xs[i], Some(lo), Some(hi)) == Success(r.value[i])
  {
    if |xs| == 0 then Success([])
    else
      var head :- Clamp(xs[0], Some(lo), Some(hi));
      var tail :- ClampEach(xs[1..], lo, hi);
      assert forall i :: 1 <= i < |xs| ==> xs[i] == xs[1..][i - 1];
      Success([head] + tail)
  }

  /** A present value that is NaN. */
  predicate IsNaN(v: Option<Num>) {
    v.Some? && v.value.NaN?
  }

  /** `if x is not None: x = clamp(x, ...)` on an optional field: an absent
      value stays absent, a present one is clamped (and a NaN rejected). */
  function ClampOpt(v: Option<Num>, lo: Option<real>, hi: Option<real>): (r: Result<Option<real>>)
    ensures r.Failure? <==> IsNaN(v)
    ensures r.Success? ==> (r.value.Some? <==> v.Some?)
    ensures r.Success? && v.Some? ==> Clamp(v.value, lo, hi) == Success(r.value.value)
  {
    match v
    case None => Success(None)
    case Some(x) =>
      var c :- Clamp(x, lo, hi);
      Success(Some(c))
  }

  /** An optional list of fixed arity is acceptable: absent, or of exactly
      `arity` elements none of which is NaN. */
  predicate FixedOk(xs: Option<seq<Num>>, arity: nat) {
    xs.None? || (|xs.value| == arity && forall i :: 0 <= i < |xs.value| ==> xs.value[i].Val?)
  }

  /** An optional coordinate list (`center`, `pos`, `rect`): when present it
      must have exactly `arity` elements, each clamped into [lo, hi]. */
  function ClampFixed(xs: Option<seq<Num>>, arity: nat, lo: real, hi: real): (r: Result<Option<seq<real>>>)
    ensures r.Success? <==> FixedOk(xs, arity)
    ensures r.Success? ==> (r.value.Some? <==> xs.Some?)
    ensures r.Success? && xs.Some? ==> |r.value.value| == arity
    ensures r.Success? && xs.Some? ==>
      forall i :: 0 <= i < arity ==> Clamp(xs.value[i], Some(lo), Some(hi)) == Success(r.value.value[i])
  {
    match xs
    case None => Success(None)
    case Some(cs) =>
      if |cs| != arity then Failure("list has the wrong length")
      else
        var clamped :- ClampEach(cs, lo, hi);
        Success(Some(clamped))
  }

  /** `path.startswith("res://runtime/")`. */
  predicate IsRuntimePath(path: string) {
    |RuntimePrefix| <= |path| && path[..|RuntimePrefix|] == RuntimePrefix
  }

  /** `ensure_runtime_path`: the path comes back unchanged exactly when it
      lies under the runtime namespace, and is rejected otherwise. */
  function EnsureRuntimePath(path: string): (r: Result<string>)
    ensures r.Success? <==> IsRuntimePath(path)
    ensures r.Success? ==> r.value == path
  {
    if RuntimePrefix <= path then Success(path)
    else Failure("runtime assets must be stored under res://runtime/")
  }

  /** `[color for color in palette if color]`: the non-empty entries, in order. */
  function NonEmptyEntries(colors: seq<string>): (r: seq<string>)
    ensures |r| <= |colors|
    ensures forall c :: c in r <==> c in colors && c != ""
    ensures forall c :: c != "" ==> multiset(r)[c] == multiset(colors)[c]
    ensures multiset(r)[""] == 0
  {
    if |colors| == 0 then []
    else
      var tail := NonEmptyEntries(colors[1..]);
      assert colors == [colors[0]] + colors[1..];
      if colors[0] != "" then [colors[0]] + tail else tail
  }

  /** Filtering distributes over concatenation: the entries kept from `a + b`
      are those kept from `a` followed by those kept from `b`. */
  lemma {:induction false} NonEmptyEntriesAppend(a: seq<string>, b: seq<string>)
    ensures NonEmptyEntries(a + b) == NonEmptyEntries(a) + NonEmptyEntries(b)
    decreases |a|
  {
    if |a| > 0 {
      assert (a + b)[0] == a[0];
      assert (a + b)[1..] == a[1..] + b;
      NonEmptyEntriesAppend(a[1..], b);
    } else {
      assert a + b == b;
    }
  }

  /** The palette has at least one non-empty color. */
  predicate HasColor(colors: seq<string>) {
    exists c :: c in colors && c != ""
  }

  /** A list without empty entries passes the filter unchanged. */
  lemma {:induction false} NonEmptyEntriesFilled(colors: seq<string>)
    requires forall i :: 0 <= i < |colors| ==> colors[i] != ""
    ensures NonEmptyEntries(colors) == colors
    decreases |colors|
  {
    if |colors| > 0 {
      assert forall i :: 0 <= i < |colors[1..]| ==> colors[1..][i] == colors[i + 1];
      NonEmptyEntriesFilled(colors[1..]);
      assert colors == [colors[0]] + colors[1..];
    }
  }

  /** `ensure_palette`: the non-empty entries in order, failing exactly when
      there are none. A successful palette is therefore never empty. */
  function EnsurePalette(colors: seq<string>): (r: Result<seq<string>>)
    ensures r.Success? <==> HasColor(colors)
    ensures r.Success? ==> r.value == NonEmptyEntries(colors) && |r.value| > 0
  {
    var kept := NonEmptyEntries(colors);
    if |kept| == 0 then
      assert !HasColor(colors) by {
        forall c | c in colors ensures c == "" {
          assert c !in kept;
        }
      }
      Failure("palette must contain at least one color")
    else
      assert kept[0] in colors;
      Success(kept)
  }

  /** The clamp examples: 500 saturates to 200 and -10 to 0 in [0, 200]. */
  lemma ClampExamples()
    ensures Clamp(Val(500.0), Some(0.0), Some(200.0)) == Success(200.0)
    ensures Clamp(Val(-10.0), Some(0.0), Some(200.0)) == Success(0.0)
    ensures Clamp(NaN, Some(0.0), Some(200.0)).Failure?
  {
  }
}
