/**
 * Function-body extraction and the statistics helper that the structure module uses to judge
 * whether function sizes are uniform.
 */
module Bodies {
  import opened Text

  /** A line that opens a body: `/function|def/` has no word boundaries, so `undefined` and `default` qualify. */
  predicate IsHeaderLine(line: string) {
    Contains(line, "function") || Contains(line, "def")
  }

  /** The loop state of the body scan: the lines collected since the last header, the brace depth, the bodies so far. */
  datatype ScanState = ScanState(buf: seq<string>, depth: int, bodies: seq<string>)

  const Start := ScanState([], 0, [])

  /**
   * One iteration of the scan. A header line empties the buffer and resets the depth before it is
   * pushed, so its own braces are never counted; every later line is pushed and counted, and the
   * buffer is recorded as a body each time the depth is back at zero (without being cleared).
   */
  function Step(st: ScanState, line: string): (r: ScanState)
    ensures IsHeaderLine(line) ==> r == ScanState([line], 0, st.bodies)
    ensures !IsHeaderLine(line) && st.buf == [] ==> r == st
    ensures !IsHeaderLine(line) && st.buf != [] ==>
      r.buf == st.buf + [line] &&
      r.depth == st.depth + CountChar(line, '{') - CountChar(line, '}') &&
      r.bodies == st.bodies + (if r.depth == 0 then [Join(r.buf)] else [])
  {
    var st1 := if IsHeaderLine(line) then ScanState([], 0, st.bodies) else st;
    var st2 :=
      if |st1.buf| > 0 then
        var buf := st1.buf + [line];
        var depth := st1.depth + CountChar(line, '{') - CountChar(line, '}');
        ScanState(buf, depth, if depth == 0 then st1.bodies + [Join(buf)] else st1.bodies)
      else st1;
    if IsHeaderLine(line) then st2.(buf := st2.buf + [line]) else st2
  }

  /** The scan state after the given lines: the first line never closes a body, and no line closes two. */
  function Scan(lines: seq<string>): (r: ScanState)
    ensures lines == [] ==> r == Start
    ensures lines != [] ==> |r.bodies| < |lines|
    ensures |lines| == 1 ==> r.bodies == []
  {
    if lines == [] then Start else Step(Scan(lines[..|lines| - 1]), lines[|lines| - 1])
  }

  /** `extractFunctionBodies(code)` as a function of the code: fewer bodies than lines. */
  function FunctionBodies(code: string): (bodies: seq<string>)
    ensures |bodies| < |Lines(code)|
  {
    Scan(Lines(code)).bodies
  }

  /** What the scan keeps true: the buffer holds whole lines, and every body recorded so far has at least two lines. */
  ghost predicate ScanInvariant(st: ScanState, n: nat) {
    NoNewlines(st.buf) &&
    (n == 0 ==> st.buf == [] && st.bodies == []) &&
    (n > 0 ==> |st.bodies| <= n - 1) &&
    forall k :: 0 <= k < |st.bodies| ==> |Lines(st.bodies[k])| >= 2
  }

  lemma StepKeepsInvariant(st: ScanState, n: nat, line: string)
    requires ScanInvariant(st, n) && '\n' !in line
    ensures ScanInvariant(Step(st, line), n + 1)
  {
    var st1 := if IsHeaderLine(line) then ScanState([], 0, st.bodies) else st;
    if |st1.buf| > 0 {
      var buf := st1.buf + [line];
      assert NoNewlines(buf);
      LinesOfJoin(buf);
    }
  }

  /** The recorded bodies each have at least two lines (a header and one more), and a scan of `n` lines records fewer than `n` of them. */
  lemma {:induction false} ScanProperties(lines: seq<string>)
    requires NoNewlines(lines)
    ensures ScanInvariant(Scan(lines), |lines|)
    decreases |lines|
  {
    if lines != [] {
      var init := lines[..|lines| - 1];
      assert NoNewlines(init);
      ScanProperties(init);
      StepKeepsInvariant(Scan(init), |init|, lines[|lines| - 1]);
    }
  }

  /** Bodies of a code text: fewer than its lines, each of at least two lines. */
  lemma BodiesProperties(code: string)
    ensures |FunctionBodies(code)| < |Lines(code)|
    ensures forall k :: 0 <= k < |FunctionBodies(code)| ==> |Lines(FunctionBodies(code)[k])| >= 2
  {
    ScanProperties(Lines(code));
  }

  /** `extractFunctionBodies`: the line-by-line scan, updating the buffer, the depth and the bodies in place. */
  method ExtractFunctionBodies(code: string) returns (bodies: seq<string>)
    ensures bodies == FunctionBodies(code)
    ensures |bodies| < |Lines(code)|
    ensures forall k :: 0 <= k < |bodies| ==> |Lines(bodies[k])| >= 2
  {
    var lines := Lines(code);
    var buf: seq<string> := [];
    var depth := 0;
    bodies := [];
    for i := 0 to |lines|
      invariant ScanState(buf, depth, bodies) == Scan(lines[..i])
    {
      var line := lines[i];
      if IsHeaderLine(line) {
        buf := [];
        depth := 0;
      }
      if |buf| > 0 {
        buf := buf + [line];
        depth := depth + CountChar(line, '{');
        depth := depth - CountChar(line, '}');
        if depth == 0 {
          bodies := bodies + [Join(buf)];
        }
      }
      if IsHeaderLine(line) {
        buf := buf + [line];
      }
      assert lines[..i + 1][..i] == lines[..i];
    }
    assert lines[..|lines|] == lines;
    BodiesProperties(code);
  }

  // ---------------------------------------------------------------- statistics

  function Sum(vs: seq<int>): int {
    if vs == [] then 0 else Sum(vs[..|vs| - 1]) + vs[|vs| - 1]
  }

  /** Real multiplication; `(v - mean) ** 2` is `Mul(v - mean, v - mean)`. */
  function Mul(a: real, b: real): real { a * b }

  lemma ProductSign(a: real, b: real)
    ensures a > 0.0 && b > 0.0 ==> Mul(a, b) > 0.0
    ensures a < 0.0 && b < 0.0 ==> Mul(a, b) > 0.0
    ensures a == 0.0 || b == 0.0 ==> Mul(a, b) == 0.0
  {
  }

  /** A square is never negative, and positive unless its base is zero. */
  lemma SquareSign(d: real)
    ensures Mul(d, d) >= 0.0
    ensures d < 0.0 || d > 0.0 ==> Mul(d, d) > 0.0
  {
    ProductSign(d, d);
  }

  /** Sum of squared deviations from `mean`. */
  function SquaredDeviations(vs: seq<int>, mean: real): (r: real)
    ensures r >= 0.0
  {
    if vs == [] then 0.0
    else
      var d := vs[|vs| - 1] as real - mean;
      SquareSign(d);
      SquaredDeviations(vs[..|vs| - 1], mean) + Mul(d, d)
  }

  /**
   * `getStatistics` without the square root: the mean and the population variance (divided by N).
   * The standard deviation and the coefficient of variation are stated through `CvBelowQuarter`.
   */
  datatype Stats = Stats(mean: real, variance: real)

  function GetStatistics(values: seq<int>): (st: Stats)
    ensures values == [] ==> st == Stats(0.0, 0.0)
    ensures values != [] ==> st.mean * |values| as real == Sum(values) as real
    ensures st.variance >= 0.0
  {
    if values == [] then Stats(0.0, 0.0)
    else
      var mean := Sum(values) as real / |values| as real;
      Stats(mean, SquaredDeviations(values, mean) / |values| as real)
  }

  /**
   * `cv < 0.25`, where `cv` is `sqrt(variance) / mean`, or 0 when the mean is 0. A mean that is not
   * positive gives a `cv` of at most 0; a positive one gives `cv < 1/4` exactly when
   * `16 · variance < mean²`.
   */
  predicate CvBelowQuarter(st: Stats) {
    st.mean <= 0.0 || 16.0 * st.variance < st.mean * st.mean
  }

  lemma {:induction false} SumOfConstant(vs: seq<int>, c: int)
    requires forall k :: 0 <= k < |vs| ==> vs[k] == c
    ensures Sum(vs) == |vs| * c
    decreases |vs|
  {
    if vs != [] {
      SumOfConstant(vs[..|vs| - 1], c);
    }
  }

  lemma {:induction false} DeviationsOfConstant(vs: seq<int>, c: int)
    requires forall k :: 0 <= k < |vs| ==> vs[k] == c
    ensures SquaredDeviations(vs, c as real) == 0.0
    decreases |vs|
  {
    if vs != [] {
      DeviationsOfConstant(vs[..|vs| - 1], c);
    }
  }

  lemma PositiveSquare(m: real)
    requires m > 0.0
    ensures m * m > 0.0
  {
  }

  /** Equal positive lengths have no spread, so they are judged uniform. */
  lemma EqualValuesAreUniform(vs: seq<int>, c: int)
    requires vs != [] && c > 0
    requires forall k :: 0 <= k < |vs| ==> vs[k] == c
    ensures GetStatistics(vs).mean == c as real
    ensures GetStatistics(vs).variance == 0.0
    ensures CvBelowQuarter(GetStatistics(vs))
  {
    SumOfConstant(vs, c);
    var n := |vs| as real;
    assert Sum(vs) as real == n * c as real;
    assert (n * c as real) / n == c as real;
    DeviationsOfConstant(vs, c);
    var st := GetStatistics(vs);
    assert st.mean == c as real && st.variance == 0.0;
    PositiveSquare(st.mean);
    calc {
      16.0 * st.variance;
      == 0.0;
      < st.mean * st.mean;
    }
  }

  /** Squared deviations vanish only when every value equals the centre. */
  lemma {:induction false} ZeroDeviations(vs: seq<int>, m: real)
    requires SquaredDeviations(vs, m) == 0.0
    ensures forall k :: 0 <= k < |vs| ==> vs[k] as real == m
    decreases |vs|
  {
    if vs != [] {
      var init := vs[..|vs| - 1];
      var d := vs[|vs| - 1] as real - m;
      SquareSign(d);
      assert SquaredDeviations(init, m) + Mul(d, d) == 0.0;
      assert d == 0.0;
      ZeroDeviations(init, m);
      forall k | 0 <= k < |vs|
        ensures vs[k] as real == m
      {
        if k < |init| { assert vs[k] == init[k]; }
      }
    }
  }

  /** Conversely, zero variance means every value equals the mean. */
  lemma ZeroVarianceMeansEqualValues(values: seq<int>)
    requires values != [] && GetStatistics(values).variance == 0.0
    ensures forall k :: 0 <= k < |values| ==> values[k] as real == GetStatistics(values).mean
  {
    var st := GetStatistics(values);
    var n := |values| as real;
    assert SquaredDeviations(values, st.mean) == st.variance * n;
    ZeroDeviations(values, st.mean);
  }
}
