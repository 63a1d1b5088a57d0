/** The transformer of `process_and_convert`: subsample the vertex element,
    centre the positions on their mean, remap LiDAR Z-up to WebGL Y-up with a
    vertical flip, push the cloud up by a fixed offset, turn 8-bit colour into
    the DC spherical-harmonic coefficient, and give every point the same
    opacity, scale and identity rotation. Arithmetic is exact (`real`): the
    float64 accumulation and float32 casts of ply2sog.py are idealised away. */
module Splats {
  import Stride

  type Byte = b: int | 0 <= b < 256

  /** A row of the input vertex element: the properties the converter reads,
      plus whatever other properties the file carries (never read). */
  datatype Vertex = Vertex(x: real, y: real, z: real, red: Byte, green: Byte, blue: Byte,
                           extra: map<string, real>)

  /** A row of the intermediate file: the 14 `f4` properties x, y, z,
      f_dc_0..f_dc_2, opacity, scale_0..scale_2 and rot_0..rot_3, in file order. */
  datatype Splat = Splat(x: real, y: real, z: real,
                         fDc0: real, fDc1: real, fDc2: real,
                         opacity: real,
                         scale0: real, scale1: real, scale2: real,
                         rot0: real, rot1: real, rot2: real, rot3: real)

  /** The settings the conversion reads (the CONFIG dictionary). */
  datatype Config = Config(densityStep: int, yOffset: real, gaussianScale: real,
                           gaussianOpacity: real, nodeMaxMemory: string)

  const DefaultConfig: Config := Config(1, 200.0, -3.0, 20.0, "16384")

  // ---------------------------------------------------------------------------
  // Columns

  function Sum(s: seq<real>): real {
    if s == [] then 0.0 else s[0] + Sum(s[1..])
  }

  /** Arithmetic mean; the empty column (where numpy yields NaN) gets 0, which
      no record ever sees. */
  function Mean(s: seq<real>): real {
    if |s| == 0 then 0.0 else Sum(s) / |s| as real
  }

  function Shifted(s: seq<real>, d: real): (r: seq<real>)
    ensures |r| == |s|
  {
    seq(|s|, i requires 0 <= i < |s| => s[i] + d)
  }

  function Negated(s: seq<real>): (r: seq<real>)
    ensures |r| == |s|
  {
    seq(|s|, i requires 0 <= i < |s| => -s[i])
  }

  function Centered(s: seq<real>): (r: seq<real>)
    ensures |r| == |s|
  {
    seq(|s|, i requires 0 <= i < |s| => s[i] - Mean(s))
  }

  function Xs(v: seq<Vertex>): seq<real> { seq(|v|, i requires 0 <= i < |v| => v[i].x) }
  function Ys(v: seq<Vertex>): seq<real> { seq(|v|, i requires 0 <= i < |v| => v[i].y) }
  function Zs(v: seq<Vertex>): seq<real> { seq(|v|, i requires 0 <= i < |v| => v[i].z) }
  function Reds(v: seq<Vertex>): seq<Byte> { seq(|v|, i requires 0 <= i < |v| => v[i].red) }
  function Greens(v: seq<Vertex>): seq<Byte> { seq(|v|, i requires 0 <= i < |v| => v[i].green) }
  function Blues(v: seq<Vertex>): seq<Byte> { seq(|v|, i requires 0 <= i < |v| => v[i].blue) }

  /** The SH band-0 constant Y_0^0 ~ 0.28209 as ply2sog.py writes it. */
  const ShC0: real := 0.28209

  /** `(c / 255 - 0.5) / 0.28209`: an 8-bit channel as a DC coefficient. The
      coefficient lies within +-0.5 / 0.28209 and is negative exactly for the
      lower half of the channel range. */
  function ShDc(c: Byte): (f: real)
    ensures -0.5 <= f * ShC0 <= 0.5
    ensures f < 0.0 <==> c <= 127
  {
    (c as real / 255.0 - 0.5) / ShC0
  }

  function DcColumn(cs: seq<Byte>): (r: seq<real>)
    ensures |r| == |cs|
  {
    seq(|cs|, i requires 0 <= i < |cs| => ShDc(cs[i]))
  }

  /** WebGL X = LiDAR X, centred. */
  function XColumn(v: seq<Vertex>): seq<real> { Centered(Xs(v)) }

  /** WebGL Y = LiDAR -Z, centred, before the camera offset. */
  function FlippedZColumn(v: seq<Vertex>): seq<real> { Negated(Centered(Zs(v))) }

  /** WebGL Z = LiDAR Y, centred. */
  function ZColumn(v: seq<Vertex>): seq<real> { Centered(Ys(v)) }

  /** The records of the intermediate file for already subsampled vertices. */
  function VertexData(v: seq<Vertex>, cfg: Config): (rows: seq<Splat>)
    ensures |rows| == |v|
    ensures forall i :: 0 <= i < |rows| ==>
      && rows[i].opacity == cfg.gaussianOpacity
      && rows[i].scale0 == rows[i].scale1 == rows[i].scale2 == cfg.gaussianScale
      && (rows[i].rot0, rows[i].rot1, rows[i].rot2, rows[i].rot3) == (1.0, 0.0, 0.0, 0.0)
  {
    var xs, ys, zs := XColumn(v), Shifted(FlippedZColumn(v), cfg.yOffset), ZColumn(v);
    var dc0, dc1, dc2 := DcColumn(Reds(v)), DcColumn(Greens(v)), DcColumn(Blues(v));
    seq(|v|, i requires 0 <= i < |v| =>
      Splat(xs[i], ys[i], zs[i], dc0[i], dc1[i], dc2[i],
            cfg.gaussianOpacity,
            cfg.gaussianScale, cfg.gaussianScale, cfg.gaussianScale,
            1.0, 0.0, 0.0, 0.0))
  }

  /** The whole transformer: subsample by the density step, then build records. */
  function Transform(v: seq<Vertex>, cfg: Config): (rows: seq<Splat>)
    requires cfg.densityStep >= 1
    ensures |rows| == Stride.KeptCount(|v|, cfg.densityStep)
    ensures forall i :: 0 <= i < |rows| ==>
      && rows[i].opacity == cfg.gaussianOpacity
      && rows[i].scale0 == rows[i].scale1 == rows[i].scale2 == cfg.gaussianScale
      && (rows[i].rot0, rows[i].rot1, rows[i].rot2, rows[i].rot3) == (1.0, 0.0, 0.0, 0.0)
  {
    VertexData(Stride.Subsample(v, cfg.densityStep), cfg)
  }

  function OutXs(rows: seq<Splat>): seq<real> { seq(|rows|, i requires 0 <= i < |rows| => rows[i].x) }
  function OutYs(rows: seq<Splat>): seq<real> { seq(|rows|, i requires 0 <= i < |rows| => rows[i].y) }
  function OutZs(rows: seq<Splat>): seq<real> { seq(|rows|, i requires 0 <= i < |rows| => rows[i].z) }

  // ---------------------------------------------------------------------------
  // What each record holds

  /** Record i takes its position from vertex i through the fixed axis remap
      (x, y, z) -> (x, -z, y) around the means plus the vertical offset, its
      colour channel by channel, and the uniform splat attributes. */
  lemma RecordLayout(v: seq<Vertex>, cfg: Config, i: nat)
    requires i < |v|
    ensures var p := VertexData(v, cfg)[i];
      && p.x == v[i].x - Mean(Xs(v))
      && p.y == -(v[i].z - Mean(Zs(v))) + cfg.yOffset
      && p.z == v[i].y - Mean(Ys(v))
      && p.fDc0 == ShDc(v[i].red) && p.fDc1 == ShDc(v[i].green) && p.fDc2 == ShDc(v[i].blue)
      && p.opacity == cfg.gaussianOpacity
      && p.scale0 == p.scale1 == p.scale2 == cfg.gaussianScale
      && (p.rot0, p.rot1, p.rot2, p.rot3) == (1.0, 0.0, 0.0, 0.0)
  {
  }

  /** Subsampling leaves ceil(N / k) records. */
  lemma TransformLength(v: seq<Vertex>, cfg: Config)
    requires cfg.densityStep >= 1
    ensures |Transform(v, cfg)| == (|v| + cfg.densityStep - 1) / cfg.densityStep
  {
    Stride.KeptCountIsCeiling(|v|, cfg.densityStep);
  }

  /** Record i comes from input vertex i * k, centred on the means of the
      kept vertices. */
  lemma TransformPicksStride(v: seq<Vertex>, cfg: Config, i: nat)
    requires cfg.densityStep >= 1 && i < |Transform(v, cfg)|
    ensures i * cfg.densityStep < |v|
    ensures var kept, p, u := Stride.Subsample(v, cfg.densityStep), Transform(v, cfg)[i],
                              v[i * cfg.densityStep];
      && p.x == u.x - Mean(Xs(kept))
      && p.y == -(u.z - Mean(Zs(kept))) + cfg.yOffset
      && p.z == u.y - Mean(Ys(kept))
      && p.fDc0 == ShDc(u.red) && p.fDc1 == ShDc(u.green) && p.fDc2 == ShDc(u.blue)
  {
    var kept := Stride.Subsample(v, cfg.densityStep);
    Stride.SubsampleAt(v, cfg.densityStep, i);
    RecordLayout(kept, cfg, i);
  }

  /** The default configuration keeps every record: the output is the
      records of the whole cloud. */
  lemma DefaultKeepsAll(v: seq<Vertex>)
    ensures Transform(v, DefaultConfig) == VertexData(v, DefaultConfig)
  {
    Stride.StepOneIsIdentity(v);
  }

  /** Properties of the input beyond x, y, z, red, green, blue never reach the output. */
  lemma IgnoresExtraProperties(v: seq<Vertex>, w: seq<Vertex>, cfg: Config)
    requires |v| == |w|
    requires forall i :: 0 <= i < |v| ==>
      v[i].(extra := map[]) == w[i].(extra := map[])
    ensures VertexData(v, cfg) == VertexData(w, cfg)
  {
    assert Xs(v) == Xs(w) && Ys(v) == Ys(w) && Zs(v) == Zs(w) by {
      forall i | 0 <= i < |v| ensures v[i].x == w[i].x && v[i].y == w[i].y && v[i].z == w[i].z {
        assert v[i].(extra := map[]).x == w[i].(extra := map[]).x;
      }
    }
    forall i | 0 <= i < |v|
      ensures VertexData(v, cfg)[i] == VertexData(w, cfg)[i]
    {
      assert v[i].(extra := map[]) == w[i].(extra := map[]);
    }
  }

  /** Subsampling two clouds that differ only in extra properties keeps them
      differing only in extra properties. */
  lemma {:induction false} SubsampleKeepsAgreement(v: seq<Vertex>, w: seq<Vertex>, k: nat)
    requires k >= 1 && |v| == |w|
    requires forall i :: 0 <= i < |v| ==>
      v[i].(extra := map[]) == w[i].(extra := map[])
    ensures |Stride.Subsample(v, k)| == |Stride.Subsample(w, k)|
    ensures forall i :: 0 <= i < |Stride.Subsample(v, k)| ==>
      Stride.Subsample(v, k)[i].(extra := map[]) == Stride.Subsample(w, k)[i].(extra := map[])
  {
    var sv, sw := Stride.Subsample(v, k), Stride.Subsample(w, k);
    forall i | 0 <= i < |sv|
      ensures sv[i].(extra := map[]) == sw[i].(extra := map[])
    {
      Stride.SubsampleAt(v, k, i);
      Stride.SubsampleAt(w, k, i);
      var j := i * k;
      assert v[j].(extra := map[]) == w[j].(extra := map[]);
    }
  }

  /** The same holds after subsampling: extra properties never reach the
      output of the whole transformer. */
  lemma {:induction false} TransformIgnoresExtraProperties(v: seq<Vertex>, w: seq<Vertex>, cfg: Config)
    requires cfg.densityStep >= 1 && |v| == |w|
    requires forall i :: 0 <= i < |v| ==>
      v[i].(extra := map[]) == w[i].(extra := map[])
    ensures Transform(v, cfg) == Transform(w, cfg)
  {
    SubsampleKeepsAgreement(v, w, cfg.densityStep);
    IgnoresExtraProperties(Stride.Subsample(v, cfg.densityStep), Stride.Subsample(w, cfg.densityStep), cfg);
  }

  // ---------------------------------------------------------------------------
  // Colour

  /** The DC coefficient is undone exactly by (f * 0.28209 + 0.5) * 255. */
  lemma ShDcInverse(c: Byte)
    ensures (ShDc(c) * ShC0 + 0.5) * 255.0 == c as real
  {
  }

  /** The colour map is strictly increasing, so distinct channels stay distinct. */
  lemma ShDcStrictlyIncreasing(c: Byte, d: Byte)
    requires c < d
    ensures ShDc(c) < ShDc(d)
  {
  }

  // ---------------------------------------------------------------------------
  // Centring

  lemma {:induction false} SumShifted(s: seq<real>, d: real)
    ensures Sum(Shifted(s, d)) == Sum(s) + |s| as real * d
  {
    if s != [] {
      assert Shifted(s, d)[1..] == Shifted(s[1..], d);
      SumShifted(s[1..], d);
    }
  }

  lemma {:induction false} SumNegated(s: seq<real>)
    ensures Sum(Negated(s)) == -Sum(s)
  {
    if s != [] {
      assert Negated(s)[1..] == Negated(s[1..]);
      SumNegated(s[1..]);
    }
  }

  /** A centred column sums to zero. */
  lemma SumCentered(s: seq<real>)
    ensures Sum(Centered(s)) == 0.0
  {
    assert Centered(s) == Shifted(s, -Mean(s));
    SumShifted(s, -Mean(s));
    if |s| > 0 {
      assert |s| as real * (Sum(s) / |s| as real) == Sum(s);
    }
  }

  lemma OutColumns(v: seq<Vertex>, cfg: Config)
    ensures OutXs(VertexData(v, cfg)) == XColumn(v)
    ensures OutYs(VertexData(v, cfg)) == Shifted(FlippedZColumn(v), cfg.yOffset)
    ensures OutZs(VertexData(v, cfg)) == ZColumn(v)
  {
  }

  /** The centroid of the output: x and z sum to zero and y sums to N * offset,
      in exact arithmetic. */
  lemma Centroid(v: seq<Vertex>, cfg: Config)
    ensures Sum(OutXs(VertexData(v, cfg))) == 0.0
    ensures Sum(OutZs(VertexData(v, cfg))) == 0.0
    ensures Sum(OutYs(VertexData(v, cfg))) == |v| as real * cfg.yOffset
  {
    OutColumns(v, cfg);
    SumCentered(Xs(v));
    SumCentered(Ys(v));
    SumCentered(Zs(v));
    SumNegated(Centered(Zs(v)));
    SumShifted(FlippedZColumn(v), cfg.yOffset);
  }

  // ---------------------------------------------------------------------------
  // Filling the record buffer in place

  /** `y_final += Y_OFFSET`. */
  method AddOffset(a: array<real>, d: real)
    modifies a
    ensures a[..] == Shifted(old(a[..]), d)
  {
    var i := 0;
    while i < a.Length
      invariant 0 <= i <= a.Length
      invariant forall j :: 0 <= j < i ==> a[j] == old(a[j]) + d
      invariant forall j :: i <= j < a.Length ==> a[j] == old(a[j])
    {
      a[i] := a[i] + d;
      i := i + 1;
    }
  }

  /** `vertex_data['x'] = x_final` ... `vertex_data['f_dc_2'] = f_dc_2`. */
  method FillPointProperties(data: array<Splat>, xs: seq<real>, ys: seq<real>, zs: seq<real>,
                             dc0: seq<real>, dc1: seq<real>, dc2: seq<real>)
    requires |xs| == |ys| == |zs| == |dc0| == |dc1| == |dc2| == data.Length
    modifies data
    ensures forall i :: 0 <= i < data.Length ==>
      data[i] == old(data[i]).(x := xs[i], y := ys[i], z := zs[i],
                               fDc0 := dc0[i], fDc1 := dc1[i], fDc2 := dc2[i])
  {
    var i := 0;
    while i < data.Length
      invariant 0 <= i <= data.Length
      invariant forall j :: 0 <= j < i ==>
        data[j] == old(data[j]).(x := xs[j], y := ys[j], z := zs[j],
                                 fDc0 := dc0[j], fDc1 := dc1[j], fDc2 := dc2[j])
      invariant forall j :: i <= j < data.Length ==> data[j] == old(data[j])
    {
      data[i] := data[i].(x := xs[i], y := ys[i], z := zs[i],
                          fDc0 := dc0[i], fDc1 := dc1[i], fDc2 := dc2[i]);
      i := i + 1;
    }
  }

  /** The uniform splat attributes: scales, opacity and the identity rotation. */
  method FillUniformProperties(data: array<Splat>, cfg: Config)
    modifies data
    ensures forall i :: 0 <= i < data.Length ==>
      data[i] == old(data[i]).(opacity := cfg.gaussianOpacity,
                               scale0 := cfg.gaussianScale, scale1 := cfg.gaussianScale,
                               scale2 := cfg.gaussianScale,
                               rot0 := 1.0, rot1 := 0.0, rot2 := 0.0, rot3 := 0.0)
  {
    var i := 0;
    while i < data.Length
      invariant 0 <= i <= data.Length
      invariant forall j :: 0 <= j < i ==>
        data[j] == old(data[j]).(opacity := cfg.gaussianOpacity,
                                 scale0 := cfg.gaussianScale, scale1 := cfg.gaussianScale,
                                 scale2 := cfg.gaussianScale,
                                 rot0 := 1.0, rot1 := 0.0, rot2 := 0.0, rot3 := 0.0)
      invariant forall j :: i <= j < data.Length ==> data[j] == old(data[j])
    {
      data[i] := data[i].(opacity := cfg.gaussianOpacity,
                          scale0 := cfg.gaussianScale, scale1 := cfg.gaussianScale,
                          scale2 := cfg.gaussianScale,
                          rot0 := 1.0, rot1 := 0.0, rot2 := 0.0, rot3 := 0.0);
      i := i + 1;
    }
  }

  /** Lines 59-110 as ply2sog.py runs them: subsample, compute the columns,
      shift y in place, allocate the record buffer and fill it. */
  method BuildVertexData(v: seq<Vertex>, cfg: Config) returns (rows: seq<Splat>)
    requires cfg.densityStep >= 1
    ensures rows == Transform(v, cfg)
    ensures |rows| == Stride.KeptCount(|v|, cfg.densityStep)
    ensures forall i :: 0 <= i < |rows| ==>
      rows[i].opacity == cfg.gaussianOpacity &&
      rows[i].scale0 == rows[i].scale1 == rows[i].scale2 == cfg.gaussianScale &&
      rows[i].rot0 == 1.0 && rows[i].rot1 == rows[i].rot2 == rows[i].rot3 == 0.0
  {
    var sub := Stride.Subsample(v, cfg.densityStep);
    var n := |sub|;
    var xFinal := XColumn(sub);
    var flipped := FlippedZColumn(sub);
    var yFinal := new real[n](i requires 0 <= i < n => flipped[i]);
    var zFinal := ZColumn(sub);
    AddOffset(yFinal, cfg.yOffset);
    var dc0, dc1, dc2 := DcColumn(Reds(sub)), DcColumn(Greens(sub)), DcColumn(Blues(sub));
    var data := new Splat[n];
    FillPointProperties(data, xFinal, yFinal[..], zFinal, dc0, dc1, dc2);
    FillUniformProperties(data, cfg);
    rows := data[..];
    forall i | 0 <= i < n
      ensures rows[i] == VertexData(sub, cfg)[i]
    {
      RecordLayout(sub, cfg, i);
    }
  }
}
