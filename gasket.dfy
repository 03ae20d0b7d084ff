/**
 * The 3D Sierpinski gasket generator (`triangle`, `tetra`, `divideTetra`): a recursion that pushes
 * three vertices and three colours per triangle onto the global `points` and `colors` arrays.
 *
 * Vertices are of any type `P`; the midpoint `mix(a, b, 0.5)` is a parameter, since the vector
 * library is not part of this model. Colours are of any type `C`, taken from the four-entry
 * palette `currentColors`.
 */
module Gasket {

  /** 4^n. */
  function Pow4(n: nat): (p: nat)
    ensures p >= 1
  {
    if n == 0 then 1 else 4 * Pow4(n - 1)
  }

  /** The vertices one tetrahedron pushes: faces (a, c, b), (a, c, d), (a, b, d), (b, c, d). */
  function TetraPoints<P>(a: P, b: P, c: P, d: P): seq<P> {
    [a, c, b, a, c, d, a, b, d, b, c, d]
  }

  /** The colours one tetrahedron pushes: each face takes its own palette entry, 0 to 3 in order,
      once per vertex. */
  function TetraColors<C>(palette: seq<C>): seq<C>
    requires |palette| == 4
  {
    [palette[0], palette[0], palette[0], palette[1], palette[1], palette[1],
     palette[2], palette[2], palette[2], palette[3], palette[3], palette[3]]
  }

  /** The vertices `divideTetra(a, b, c, d, count)` pushes: at 0 the tetrahedron itself; otherwise
      the four corner tetrahedra cut at the edge midpoints, in the order the program visits them. */
  function GasketPoints<P>(a: P, b: P, c: P, d: P, count: nat, mix: (P, P) -> P): seq<P>
    decreases count
  {
    if count == 0 then TetraPoints(a, b, c, d)
    else
      var ab, ac, ad := mix(a, b), mix(a, c), mix(a, d);
      var bc, bd, cd := mix(b, c), mix(b, d), mix(c, d);
      GasketPoints(a, ab, ac, ad, count - 1, mix) + GasketPoints(ab, b, bc, bd, count - 1, mix) +
      GasketPoints(ac, bc, c, cd, count - 1, mix) + GasketPoints(ad, bd, cd, d, count - 1, mix)
  }

  /** The colours `divideTetra(..., count)` pushes; they do not depend on the vertices. */
  function GasketColors<C>(palette: seq<C>, count: nat): seq<C>
    requires |palette| == 4
    decreases count
  {
    if count == 0 then TetraColors(palette)
    else
      var part := GasketColors(palette, count - 1);
      part + part + part + part
  }

  /** A gasket of depth `count` pushes 12 colours for each of its 4^count tetrahedra. */
  lemma {:induction false} GasketColorsSize<C>(palette: seq<C>, count: nat)
    requires |palette| == 4
    ensures |GasketColors(palette, count)| == 12 * Pow4(count)
  {
    if count > 0 {
      GasketColorsSize(palette, count - 1);
    }
  }

  /** A gasket of depth `count` is 4^count tetrahedra of 12 vertices each, and it pushes exactly as
      many colours as vertices. */
  lemma {:induction false} GasketSize<P, C>(a: P, b: P, c: P, d: P, count: nat, mix: (P, P) -> P, palette: seq<C>)
    requires |palette| == 4
    ensures |GasketPoints(a, b, c, d, count, mix)| == 12 * Pow4(count)
    ensures |GasketColors(palette, count)| == 12 * Pow4(count)
  {
    GasketColorsSize(palette, count);
    if count > 0 {
      var ab, ac, ad := mix(a, b), mix(a, c), mix(a, d);
      var bc, bd, cd := mix(b, c), mix(b, d), mix(c, d);
      GasketSize(a, ab, ac, ad, count - 1, mix, palette);
      GasketSize(ab, b, bc, bd, count - 1, mix, palette);
      GasketSize(ac, bc, c, cd, count - 1, mix, palette);
      GasketSize(ad, bd, cd, d, count - 1, mix, palette);
    }
  }

  /** Vertex `i` is vertex `i mod 3` of triangle `i / 3`; triangles cycle through the faces of their
      tetrahedron, so triangle `t` is face `t mod 4`. */
  function FaceColor<C>(palette: seq<C>, i: nat): C
    requires |palette| == 4
  {
    palette[(i / 3) % 4]
  }

  /** Shifting a vertex index by whole tetrahedra does not change the face it lies on. */
  lemma FaceShift(i: nat, m: nat)
    ensures ((i + 12 * m) / 3) % 4 == (i / 3) % 4
  {
    assert (i + 12 * m) / 3 == i / 3 + 4 * m;
  }

  /** Every colour of `s` is the one its position calls for. */
  ghost predicate FacePattern<C>(palette: seq<C>, s: seq<C>)
    requires |palette| == 4
  {
    forall i :: 0 <= i < |s| ==> s[i] == FaceColor(palette, i)
  }

  /** A run of whole tetrahedra in the pattern followed by a run in the pattern is in the pattern. */
  lemma PatternAppend<C>(palette: seq<C>, x: seq<C>, y: seq<C>, m: nat)
    requires |palette| == 4 && |x| == 12 * m
    requires FacePattern(palette, x) && FacePattern(palette, y)
    ensures FacePattern(palette, x + y)
  {
    forall i | |x| <= i < |x + y|
      ensures (x + y)[i] == FaceColor(palette, i)
    {
      FaceShift(i - |x|, m);
    }
  }

  /** The colour pattern of a whole gasket: the three vertices of a triangle share one colour, and
      the four triangles of each tetrahedron take palette entries 0, 1, 2, 3 in that order. */
  lemma {:induction false} GasketColorPattern<C>(palette: seq<C>, count: nat)
    requires |palette| == 4
    ensures FacePattern(palette, GasketColors(palette, count))
  {
    if count > 0 {
      var part := GasketColors(palette, count - 1);
      GasketColorPattern(palette, count - 1);
      GasketColorsSize(palette, count - 1);
      var m := Pow4(count - 1);
      PatternAppend(palette, part, part, m);
      PatternAppend(palette, part + part, part, 2 * m);
      PatternAppend(palette, part + part + part, part, 3 * m);
    }
  }

  /** Appending four runs one after another appends their concatenation. */
  lemma AppendFour<T>(s: seq<T>, w: seq<T>, x: seq<T>, y: seq<T>, z: seq<T>)
    ensures s + w + x + y + z == s + (w + x + y + z)
  {
    assert s + w + x + y + z == s + (w + x + y) + z;
  }

  /** The global arrays the generator appends to, and the palette it reads. */
  class Builder<P, C> {
    var points: seq<P>
    var colors: seq<C>
    var currentColors: seq<C>

    constructor (palette: seq<C>)
      ensures points == [] && colors == [] && currentColors == palette
    {
      points, colors, currentColors := [], [], palette;
    }

    /** `triangle(a, b, c, color)`: three vertices, each with the palette entry `color`. */
    method Triangle(a: P, b: P, c: P, color: nat)
      requires color < |currentColors|
      modifies this
      ensures currentColors == old(currentColors)
      ensures points == old(points) + [a, b, c]
      ensures colors == old(colors) + [currentColors[color], currentColors[color], currentColors[color]]
    {
      colors := colors + [currentColors[color]];
      points := points + [a];
      colors := colors + [currentColors[color]];
      points := points + [b];
      colors := colors + [currentColors[color]];
      points := points + [c];
    }

    /** `tetra(a, b, c, d)`: its four faces, coloured 0 to 3. */
    method Tetra(a: P, b: P, c: P, d: P)
      requires |currentColors| == 4
      modifies this
      ensures currentColors == old(currentColors)
      ensures points == old(points) + TetraPoints(a, b, c, d)
      ensures colors == old(colors) + TetraColors(currentColors)
    {
      Triangle(a, c, b, 0);
      Triangle(a, c, d, 1);
      Triangle(a, b, d, 2);
      Triangle(b, c, d, 3);
    }

    /** `divideTetra(a, b, c, d, count)`. */
    method DivideTetra(a: P, b: P, c: P, d: P, count: nat, mix: (P, P) -> P)
      requires |currentColors| == 4
      modifies this
      ensures currentColors == old(currentColors)
      ensures points == old(points) + GasketPoints(a, b, c, d, count, mix)
      ensures colors == old(colors) + GasketColors(currentColors, count)
      decreases count
    {
      if count == 0 {
        Tetra(a, b, c, d);
      } else {
        var ab := mix(a, b);
        var ac := mix(a, c);
        var ad := mix(a, d);
        var bc := mix(b, c);
        var bd := mix(b, d);
        var cd := mix(c, d);
        var next := count - 1;
        ghost var points0, colors0 := points, colors;
        ghost var part := GasketColors(currentColors, next);
        ghost var g1, g2 := GasketPoints(a, ab, ac, ad, next, mix), GasketPoints(ab, b, bc, bd, next, mix);
        ghost var g3, g4 := GasketPoints(ac, bc, c, cd, next, mix), GasketPoints(ad, bd, cd, d, next, mix);
        assert GasketPoints(a, b, c, d, count, mix) == g1 + g2 + g3 + g4;
        DivideTetra(a, ab, ac, ad, next, mix);
        DivideTetra(ab, b, bc, bd, next, mix);
        DivideTetra(ac, bc, c, cd, next, mix);
        DivideTetra(ad, bd, cd, d, next, mix);
        AppendFour(points0, g1, g2, g3, g4);
        AppendFour(colors0, part, part, part, part);
      }
    }

    /** Emptying both arrays and generating afresh, as page load and every regeneration do: the
        arrays then hold 4^subdivide tetrahedra, point for colour, in the face-colour pattern. */
    method Generate(a: P, b: P, c: P, d: P, subdivide: nat, mix: (P, P) -> P)
      requires |currentColors| == 4
      modifies this
      ensures points == GasketPoints(a, b, c, d, subdivide, mix)
      ensures |points| == |colors| == 12 * Pow4(subdivide)
      ensures currentColors == old(currentColors)
      ensures FacePattern(currentColors, colors)
    {
      points := [];
      colors := [];
      DivideTetra(a, b, c, d, subdivide, mix);
      GasketSize(a, b, c, d, subdivide, mix, currentColors);
      GasketColorPattern(currentColors, subdivide);
    }
  }
}
