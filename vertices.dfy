/**
 * The vertex records that the scatter widget uploads to the GPU: one record
 * per data row, built from four data columns (x, y, z and a mass that sets
 * the point size).
 */
module Vertices {

  datatype Position = Position(x: real, y: real, z: real)

  /** An RGBA colour, one real per channel. */
  datatype Color = Color(r: real, g: real, b: real, a: real)

  /** One GPU vertex: the fields a_position, a_size, a_bg_color and a_fg_color. */
  datatype Vertex = Vertex(position: Position, size: real, bgColor: Color, fgColor: Color)

  /** The four selected data columns: x, y, z and the mass that sets the size. */
  datatype Columns = Columns(x: seq<real>, y: seq<real>, z: seq<real>, mass: seq<real>)

  /** Every point is outlined in opaque black. */
  const Foreground: Color := Color(0.0, 0.0, 0.0, 1.0)

  /** Background channels are drawn uniformly from [BgLow, BgHigh). */
  const BgLow: real := 0.85
  const BgHigh: real := 1.0

  predicate InBgRange(v: real) { BgLow <= v < BgHigh }

  predicate IsBackground(c: Color)
  {
    InBgRange(c.r) && InBgRange(c.g) && InBgRange(c.b) && InBgRange(c.a)
  }

  /** A possible outcome of the random background draw for n points. */
  predicate IsBackgroundDraw(draw: seq<Color>, n: nat)
  {
    |draw| == n && forall i :: 0 <= i < |draw| ==> IsBackground(draw[i])
  }

  /**
   * Whether a column can be stored into a slot of n values: numpy accepts a
   * column of length n, or a single value that it repeats n times.
   */
  predicate Fits(col: seq<real>, n: nat) { |col| == n || |col| == 1 }

  /** The i-th value stored from a column that fits n slots. */
  function Broadcast(col: seq<real>, n: nat, i: nat): (v: real)
    requires Fits(col, n) && i < n
    ensures |col| == n ==> v == col[i]
    ensures |col| != n ==> v == col[0]
  {
    if |col| == 1 then col[0] else col[i]
  }

  /** Number of points: the length of the mass column. */
  function Count(c: Columns): (n: nat) { |c.mass| }

  /** The three position columns can be stored into Count(c) slots. */
  predicate Conformable(c: Columns)
  {
    Fits(c.x, Count(c)) && Fits(c.y, Count(c)) && Fits(c.z, Count(c))
  }

  /** Point size from a mass: five tenths of its cube root. */
  function MassToSize(mass: real, cbrt: real -> real): (size: real)
  {
    5.0 * cbrt(mass) / 10.0
  }

  /**
   * The records the binder must produce: exactly Count(c) of them, the i-th
   * placed at row i of the position columns, sized by row i of the mass
   * column, outlined in Foreground, and filled with the i-th drawn colour.
   */
  function Bind(c: Columns, draw: seq<Color>, cbrt: real -> real): (r: seq<Vertex>)
    requires Conformable(c) && IsBackgroundDraw(draw, Count(c))
    ensures |r| == Count(c)
    ensures forall i :: 0 <= i < |r| ==>
      r[i].position == Position(Broadcast(c.x, Count(c), i), Broadcast(c.y, Count(c), i), Broadcast(c.z, Count(c), i))
    ensures forall i :: 0 <= i < |r| ==> r[i].size == 5.0 * cbrt(c.mass[i]) / 10.0
    ensures forall i :: 0 <= i < |r| ==> r[i].fgColor == Color(0.0, 0.0, 0.0, 1.0)
    ensures forall i :: 0 <= i < |r| ==> r[i].bgColor == draw[i] && IsBackground(r[i].bgColor)
  {
    seq(Count(c), i requires 0 <= i < Count(c) => RecordAt(c, draw, cbrt, i))
  }

  /** Record i of Bind. */
  function RecordAt(c: Columns, draw: seq<Color>, cbrt: real -> real, i: nat): (v: Vertex)
    requires Conformable(c) && IsBackgroundDraw(draw, Count(c)) && i < Count(c)
  {
    Vertex(Position(Broadcast(c.x, Count(c), i), Broadcast(c.y, Count(c), i), Broadcast(c.z, Count(c), i)),
           MassToSize(c.mass[i], cbrt), draw[i], Foreground)
  }

  /**
   * Fills a zero-initialised record array of Count(c) entries, row by row;
   * the result is the record sequence Bind specifies.
   */
  method BuildVertices(c: Columns, draw: seq<Color>, cbrt: real -> real) returns (records: seq<Vertex>)
    requires Conformable(c) && IsBackgroundDraw(draw, Count(c))
    ensures records == Bind(c, draw, cbrt)
  {
    var n := Count(c);
    var zero := Color(0.0, 0.0, 0.0, 0.0);
    var data := new Vertex[n](_ => Vertex(Position(0.0, 0.0, 0.0), 0.0, zero, zero));
    var i := 0;
    while i < n
      invariant 0 <= i <= n
      invariant forall k :: 0 <= k < i ==> data[k] == RecordAt(c, draw, cbrt, k)
    {
      var p := Position(Broadcast(c.x, n, i), Broadcast(c.y, n, i), Broadcast(c.z, n, i));
      data[i] := Vertex(p, 5.0 * cbrt(c.mass[i]) / 10.0, draw[i], Foreground);
      i := i + 1;
    }
    records := data[..];
  }

  /**
   * Rebinding the same columns reproduces the same geometry: positions and
   * sizes depend only on the columns, never on the random colour draw.
   */
  lemma BindGeometryIgnoresDraw(c: Columns, draw1: seq<Color>, draw2: seq<Color>, cbrt: real -> real)
    requires Conformable(c) && IsBackgroundDraw(draw1, Count(c)) && IsBackgroundDraw(draw2, Count(c))
    ensures |Bind(c, draw1, cbrt)| == |Bind(c, draw2, cbrt)|
    ensures forall i :: 0 <= i < Count(c) ==>
      Bind(c, draw1, cbrt)[i].position == Bind(c, draw2, cbrt)[i].position &&
      Bind(c, draw1, cbrt)[i].size == Bind(c, draw2, cbrt)[i].size
  {
  }

  /** A real cube root of a non-negative mass is non-negative, so is the size. */
  lemma SizeNonNegative(mass: real, cbrt: real -> real)
    requires mass >= 0.0 && cbrt(mass) * cbrt(mass) * cbrt(mass) == mass
    ensures MassToSize(mass, cbrt) >= 0.0
  {
  }

  /**
   * When the mass column holds non-negative masses and cbrt is a real cube
   * root on them, every bound point has a non-negative size.
   */
  lemma BindSizesNonNegative(c: Columns, draw: seq<Color>, cbrt: real -> real)
    requires Conformable(c) && IsBackgroundDraw(draw, Count(c))
    requires forall i :: 0 <= i < |c.mass| ==>
      c.mass[i] >= 0.0 && cbrt(c.mass[i]) * cbrt(c.mass[i]) * cbrt(c.mass[i]) == c.mass[i]
    ensures forall i :: 0 <= i < |Bind(c, draw, cbrt)| ==> Bind(c, draw, cbrt)[i].size >= 0.0
  {
    forall i | 0 <= i < |Bind(c, draw, cbrt)|
      ensures Bind(c, draw, cbrt)[i].size >= 0.0
    {
      SizeNonNegative(c.mass[i], cbrt);
    }
  }

  /**
   * Three rows x = [0, 1, 2], y = z = [0, 0, 0], mass = [1, 8, 27]: the points
   * lie on the x-axis at 0, 1 and 2, with sizes 0.5, 1.0 and 1.5.
   */
  lemma ThreeRowScenario(draw: seq<Color>, cbrt: real -> real)
    requires IsBackgroundDraw(draw, 3)
    requires cbrt(1.0) == 1.0 && cbrt(8.0) == 2.0 && cbrt(27.0) == 3.0
    ensures var r := Bind(Columns([0.0, 1.0, 2.0], [0.0, 0.0, 0.0], [0.0, 0.0, 0.0], [1.0, 8.0, 27.0]), draw, cbrt);
      |r| == 3 &&
      r[0].position == Position(0.0, 0.0, 0.0) && r[1].position == Position(1.0, 0.0, 0.0) &&
      r[2].position == Position(2.0, 0.0, 0.0) &&
      r[0].size == 0.5 && r[1].size == 1.0 && r[2].size == 1.5
  {
  }
}
