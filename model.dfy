/**
  The model data of the viewer and the loader that fills it: a two-pass reader of
  the "v " and "f " lines of a Wavefront OBJ file, the bounds kept by minMax, the
  fit-to-viewport step and the release of the storage. Row 0 of the vertex matrix
  and slot 0 of the face array are never written.
 */
module MeshModel {
  import opened ObjFormat
  import opened Geometry

  /** One face slot: its index buffer and the number of index slots reserved for it. */
  datatype Facets = Facets(vertexes: seq<nat>, numbersOfVertexesForPolygon: nat)

  /** The "v " lines of a file, in file order. */
  function VertexLines(lines: seq<string>): seq<string> { TaggedLines(lines, 'v') }

  /** The "f " lines of a file, in file order. */
  function FaceLines(lines: seq<string>): seq<string> { TaggedLines(lines, 'f') }

  /** The vertices the "v " lines give; `scan` stands for reading the three numbers of one line. */
  function Scanned(vl: seq<string>, scan: string -> Vertex): seq<Vertex> {
    seq(|vl|, k requires 0 <= k < |vl| => scan(vl[k]))
  }

  /** Row i of a vertex matrix with three columns. */
  function RowOf(m: array2<real>, i: nat): Vertex
    reads m
    requires i < m.Length0 && 3 <= m.Length1
  {
    Vertex(m[i, 0], m[i, 1], m[i, 2])
  }

  function TableOf(m: array2<real>): seq<Vertex>
    reads m
    requires m.Length0 == 0 || 3 <= m.Length1
  {
    seq(m.Length0, i requires 0 <= i < m.Length0 reads m => RowOf(m, i))
  }

  /**
    What reading line n does to the bookkeeping of the second pass: the line counters
    advance by one exactly on a line of their kind, and such a line is the next one of
    its kind in file order.
   */
  lemma LineStep(lines: seq<string>, n: nat)
    requires n < |lines|
    ensures |TaggedLines(lines[..n + 1], 'v')| == |TaggedLines(lines[..n], 'v')| + if IsVertexLine(lines[n]) then 1 else 0
    ensures |TaggedLines(lines[..n + 1], 'f')| == |TaggedLines(lines[..n], 'f')| + if IsFaceLine(lines[n]) then 1 else 0
    ensures |TaggedLines(lines[..n + 1], 'v')| <= |VertexLines(lines)|
    ensures |TaggedLines(lines[..n + 1], 'f')| <= |FaceLines(lines)|
    ensures IsVertexLine(lines[n]) ==> VertexLines(lines)[|TaggedLines(lines[..n], 'v')|] == lines[n]
    ensures IsFaceLine(lines[n]) ==> FaceLines(lines)[|TaggedLines(lines[..n], 'f')|] == lines[n]
  {
    TaggedLinesSnoc(lines, n, 'v');
    TaggedLinesSnoc(lines, n, 'f');
    TaggedLinesPrefix(lines, n + 1, 'v');
    TaggedLinesPrefix(lines, n + 1, 'f');
  }

  /** Taking in one more vertex of the list is one more minMax. */
  lemma WidenAllStep(b: Box, vs: seq<Vertex>, m: nat)
    requires m < |vs|
    ensures WidenAll(b, vs[..m + 1]) == Widen(WidenAll(b, vs[..m]), vs[m])
  {
    assert vs[..m + 1][..m] == vs[..m];
  }

  /** Storing entry e of `all` over a buffer whose first e entries already hold `all`. */
  lemma FillStep(all: seq<nat>, before: seq<nat>, e: nat)
    requires e < |all| <= |before|
    ensures (all[..e] + before[e..])[e := all[e]] == all[..e + 1] + before[e + 1..]
  {
  }

  /** Face slot `f` holds the face `spec` describes: all its slots reserved, the stored indices in a prefix. */
  predicate Stores(f: Facets, spec: FaceSpec) {
    && f.numbersOfVertexesForPolygon == spec.slots
    && |f.vertexes| == spec.slots
    && |spec.indices| <= |f.vertexes|
    && f.vertexes[..|spec.indices|] == spec.indices
  }

  /**
    The strtok loop of parserVertexesForPolygon after it stored e indices, with `c` the
    last strtok result: the rest of the index list comes from the tokens still to come,
    and the buffer holds the first e indices over its original contents.
   */
  ghost predicate Filling(all: seq<nat>, buffer: seq<nat>, filled: seq<nat>, e: nat, c: Cut) {
    e <= |all| <= |buffer| && all[e..] == IndexValues(Remaining(c)) && filled == all[..e] + buffer[e..]
  }

  /** One turn of that loop keeps it going. */
  lemma FillTurn(all: seq<nat>, buffer: seq<nat>, filled: seq<nat>, e: nat, c: Cut)
    requires c.Token? && Filling(all, buffer, filled, e, c)
    ensures |Remaining(NextToken(c.rest))| < |Remaining(c)|
    ensures LeadingNat(c.token) != 0 ==>
              e < |filled| && Filling(all, buffer, filled[e := LeadingNat(c.token)], e + 1, NextToken(c.rest))
    ensures LeadingNat(c.token) == 0 ==> Filling(all, buffer, filled, e, NextToken(c.rest))
  {
    IndexStep(all, e, c);
    if LeadingNat(c.token) != 0 {
      FillStep(all, buffer, e);
    }
  }

  /**
    The strtok loop of parserVertexesForPolygon: walks the tokens of `line` and stores,
    from entry 0 on, every token whose value is non-zero, so the buffer comes back
    starting with the line's index list and keeping what it held after it.
   */
  method FillIndices(line: string, buffer: seq<nat>) returns (filled: seq<nat>)
    requires |IndexValues(Tokens(line))| <= |buffer|
    ensures |filled| == |buffer|
    ensures filled[..|IndexValues(Tokens(line))|] == IndexValues(Tokens(line))
    ensures filled[|IndexValues(Tokens(line))|..] == buffer[|IndexValues(Tokens(line))|..]
  {
    ghost var all := IndexValues(Tokens(line));
    filled := buffer;
    var cut := NextToken(line);
    var e: nat := 0;
    while cut.Token?
      invariant Filling(all, buffer, filled, e, cut)
      decreases |Remaining(cut)|
    {
      FillTurn(all, buffer, filled, e, cut);
      var vertex := LeadingNat(cut.token);
      if vertex != 0 {
        filled := filled[e := vertex];
        e := e + 1;
      }
      cut := NextToken(cut.rest);
    }
    assert all[..e] == all;
  }

  /**
    A sweep over the rows of a table after it reached row i: rows 1..i-1 hold `t` of
    their values in t0, every other row its value in t0.
   */
  ghost predicate Swept(rows: seq<Vertex>, t0: seq<Vertex>, t: Transform, i: nat) {
    && |rows| == |t0| && 1 <= i
    && forall k :: 0 <= k < |rows| ==> rows[k] == if 1 <= k < i then Apply(t, t0[k]) else t0[k]
  }

  /** Transforming row i moves the sweep on by one row. */
  lemma SweepTurn(rows: seq<Vertex>, t0: seq<Vertex>, t: Transform, i: nat, v: Vertex)
    requires Swept(rows, t0, t, i) && i < |rows| && v == Apply(t, rows[i])
    ensures Swept(rows[i := v], t0, t, i + 1)
  {
  }

  /** A sweep past the last row has transformed the whole table. */
  lemma SweepDone(rows: seq<Vertex>, t0: seq<Vertex>, t: Transform, i: nat)
    requires Swept(rows, t0, t, i) && |rows| <= i
    ensures rows == Transformed(t0, t)
  {
    assert forall k :: 0 <= k < |rows| ==> rows[k] == Transformed(t0, t)[k];
  }

  /** Writing cell (i, c) of a three-column matrix replaces row i of its table. */
  lemma RowWritten(m: array2<real>, before: seq<Vertex>, i: nat, v: Vertex)
    requires m.Length1 == 3 && |before| == m.Length0 && i < m.Length0
    requires forall k :: 0 <= k < m.Length0 && k != i ==> RowOf(m, k) == before[k]
    requires RowOf(m, i) == v
    ensures TableOf(m) == before[i := v]
  {
    assert forall k :: 0 <= k < m.Length0 ==> TableOf(m)[k] == before[i := v][k];
  }

  /**
    The model data (Data with its MatrixStruct), the one object the loader, the fit and
    the transforms share. The matrix carries its own dimensions: its Length0 and Length1
    are the rows and columns of MatrixStruct.
   */
  class Model {
    var countOfVertexes: nat
    var countOfPolygons: nat
    /** matrix_of_vertexes: row k holds vertex k; row 0 is unused. */
    var matrix: array2<real>
    /** array_of_polygon: face slots 1..countOfPolygons; slot 0 is unused. */
    var arrayOfPolygon: array<Facets>
    /** minX, minY, minZ, maxX, maxY, maxZ. */
    var bounds: Box

    /** Once the matrix has rows, it has the three coordinate columns. */
    predicate Shaped()
      reads this`matrix
    {
      matrix.Length0 == 0 || matrix.Length1 == 3
    }

    function Row(i: nat): Vertex
      reads this`matrix, matrix
      requires Shaped() && i < matrix.Length0
    {
      RowOf(matrix, i)
    }

    /** The whole vertex table, row 0 included. */
    function Table(): seq<Vertex>
      reads this`matrix, matrix
      requires Shaped()
    {
      TableOf(matrix)
    }

    /**
      The state a load of `lines` leaves: counts equal to the numbers of "v " and "f "
      lines, a matrix of count + 1 rows of 3 columns whose row k holds the k-th "v " line,
      count + 1 face slots whose slot k holds the k-th "f " line, and the bounds minMax
      reaches from the sentinels.
     */
    ghost predicate Represents(lines: seq<string>, scan: string -> Vertex)
      reads this, matrix, arrayOfPolygon
    {
      var vl, fl := VertexLines(lines), FaceLines(lines);
      && countOfVertexes == |vl| && countOfPolygons == |fl|
      && matrix.Length0 == |vl| + 1 && matrix.Length1 == 3
      && arrayOfPolygon.Length == |fl| + 1
      && (forall k :: 1 <= k < matrix.Length0 ==> Row(k) == scan(vl[k - 1]))
      && (forall k :: 1 <= k < arrayOfPolygon.Length ==> Stores(arrayOfPolygon[k], FaceOf(fl[k - 1])))
      && bounds == WidenAll(Sentinel, Scanned(vl, scan))
    }

    /** The single instance lives in static storage, so every field starts at zero and no storage is held. */
    constructor ()
      ensures countOfVertexes == 0 && countOfPolygons == 0
      ensures matrix.Length0 == 0 && matrix.Length1 == 0 && arrayOfPolygon.Length == 0
      ensures bounds == Box(0.0, 0.0, 0.0, 0.0, 0.0, 0.0)
    {
      countOfVertexes, countOfPolygons := 0, 0;
      matrix := new real[0, 0];
      arrayOfPolygon := new Facets[0];
      bounds := Box(0.0, 0.0, 0.0, 0.0, 0.0, 0.0);
    }

    /** Zero counts and dimensions, no storage (the null pointers) and the sentinel bounds. */
    method Initialize()
      modifies this
      ensures countOfPolygons == 0 && countOfVertexes == 0
      ensures matrix.Length0 == 0 && matrix.Length1 == 0 && arrayOfPolygon.Length == 0
      ensures bounds == Sentinel
    {
      countOfPolygons := 0;
      countOfVertexes := 0;
      matrix := new real[0, 0];
      arrayOfPolygon := new Facets[0];
      bounds := Box(DblMax, DblMax, DblMax, DblMin, DblMin, DblMin);
    }

    /** The first pass adds the numbers of "v " and "f " lines to the counts and changes nothing else. */
    method FirstReadParser(lines: seq<string>)
      modifies this`countOfVertexes, this`countOfPolygons
      ensures countOfVertexes == old(countOfVertexes) + |VertexLines(lines)|
      ensures countOfPolygons == old(countOfPolygons) + |FaceLines(lines)|
    {
      var n := 0;
      while n < |lines|
        invariant 0 <= n <= |lines|
        invariant countOfVertexes == old(countOfVertexes) + |TaggedLines(lines[..n], 'v')|
        invariant countOfPolygons == old(countOfPolygons) + |TaggedLines(lines[..n], 'f')|
      {
        TaggedLinesSnoc(lines, n, 'v');
        TaggedLinesSnoc(lines, n, 'f');
        if IsVertexLine(lines[n]) {
          countOfVertexes := countOfVertexes + 1;
        }
        if IsFaceLine(lines[n]) {
          countOfPolygons := countOfPolygons + 1;
        }
        n := n + 1;
      }
      assert lines[..n] == lines;
    }

    /** A fresh matrix of countOfVertexes + 1 rows of 3 columns, its contents unspecified. */
    method CreateMatrixOfVertexes()
      modifies this`matrix
      ensures fresh(matrix) && matrix.Length0 == countOfVertexes + 1 && matrix.Length1 == 3
    {
      matrix := new real[countOfVertexes + 1, 3];
    }

    /** A fresh face array of countOfPolygons + 1 slots, its contents unspecified. */
    method PolygonMemoryAllocation()
      modifies this`arrayOfPolygon
      ensures fresh(arrayOfPolygon) && arrayOfPolygon.Length == countOfPolygons + 1
    {
      arrayOfPolygon := new Facets[countOfPolygons + 1];
    }

    /** A fresh index buffer of exactly numbersOfVertexesForPolygon entries for face j, contents unspecified. */
    method VertexesForPolygonMemoryAllocation(j: nat)
      requires j < arrayOfPolygon.Length
      modifies arrayOfPolygon
      ensures arrayOfPolygon[j].numbersOfVertexesForPolygon == old(arrayOfPolygon[j].numbersOfVertexesForPolygon)
      ensures |arrayOfPolygon[j].vertexes| == arrayOfPolygon[j].numbersOfVertexesForPolygon
      ensures forall k :: 0 <= k < arrayOfPolygon.Length && k != j ==> arrayOfPolygon[k] == old(arrayOfPolygon[k])
    {
      var buffer := new nat[arrayOfPolygon[j].numbersOfVertexesForPolygon];
      arrayOfPolygon[j] := arrayOfPolygon[j].(vertexes := buffer[..]);
    }

    /** minMax(i): the bounds become the smallest box around the old bounds and row i. */
    method MinMax(i: nat)
      requires Shaped() && i < matrix.Length0
      modifies this`bounds
      ensures bounds == Widen(old(bounds), Row(i))
    {
      var b := bounds;
      var maxX := Max(matrix[i, 0], b.maxX);
      var maxY := Max(matrix[i, 1], b.maxY);
      var maxZ := Max(matrix[i, 2], b.maxZ);
      var minX := Min(matrix[i, 0], b.minX);
      var minY := Min(matrix[i, 1], b.minY);
      var minZ := Min(matrix[i, 2], b.minZ);
      bounds := Box(minX, minY, minZ, maxX, maxY, maxZ);
    }

    /** Counts the strtok tokens of a face line and records one slot fewer (the "f" marker) for face j. */
    method CountVertexesForPolygon(line: string, j: nat)
      requires IsFaceLine(line) && j < arrayOfPolygon.Length
      modifies arrayOfPolygon
      ensures arrayOfPolygon[j] == old(arrayOfPolygon[j]).(numbersOfVertexesForPolygon := FaceOf(line).slots)
      ensures forall k :: 0 <= k < arrayOfPolygon.Length && k != j ==> arrayOfPolygon[k] == old(arrayOfPolygon[k])
    {
      FaceLineFirstToken(line);
      var cut := NextToken(line);
      var count: nat := 0;
      while cut.Token?
        invariant count + |Remaining(cut)| == |Tokens(line)|
        decreases |Remaining(cut)|
      {
        count := count + 1;
        cut := NextToken(cut.rest);
      }
      arrayOfPolygon[j] := arrayOfPolygon[j].(numbersOfVertexesForPolygon := count - 1);
    }

    /**
      parserVertexesForPolygon: the buffer of face j starts with the face's index list and
      keeps what it held after it.
     */
    method ParserVertexesForPolygon(line: string, j: nat)
      requires IsFaceLine(line) && j < arrayOfPolygon.Length
      requires |IndexValues(Tokens(line))| <= |arrayOfPolygon[j].vertexes|
      modifies arrayOfPolygon
      ensures var ix := IndexValues(Tokens(line));
              arrayOfPolygon[j] == old(arrayOfPolygon[j]).(vertexes := ix + old(arrayOfPolygon[j].vertexes)[|ix|..])
      ensures forall k :: 0 <= k < arrayOfPolygon.Length && k != j ==> arrayOfPolygon[k] == old(arrayOfPolygon[k])
    {
      var filled := FillIndices(line, arrayOfPolygon[j].vertexes);
      arrayOfPolygon[j] := arrayOfPolygon[j].(vertexes := filled);
    }

    /**
      Rows 1..i-1 hold the first i - 1 lines of `vl` read through `scan`; row 0 and rows
      i.. still hold what they held at the start of the pass (t0).
     */
    ghost predicate RowsRead(vl: seq<string>, scan: string -> Vertex, i: nat, t0: seq<Vertex>)
      reads this`matrix, matrix
    {
      && Shaped() && |t0| == matrix.Length0 && 1 <= i <= |vl| + 1 && |vl| < matrix.Length0
      && (forall k :: 1 <= k < i ==> Row(k) == scan(vl[k - 1]))
      && (forall k :: 0 <= k < matrix.Length0 && (k == 0 || i <= k) ==> Row(k) == t0[k])
    }

    /**
      Face slots 1..j-1 hold the first j - 1 lines of `fl`, which are all "f " lines; slot
      0 and slots j.. still hold what they held at the start of the pass (f0).
     */
    ghost predicate FacesRead(fl: seq<string>, j: nat, f0: seq<Facets>)
      reads this`arrayOfPolygon, arrayOfPolygon
    {
      && |f0| == arrayOfPolygon.Length && 1 <= j <= |fl| + 1 && |fl| < arrayOfPolygon.Length
      && (forall k :: 0 <= k < |fl| ==> IsFaceLine(fl[k]))
      && (forall k :: 1 <= k < j ==> Stores(arrayOfPolygon[k], FaceOf(fl[k - 1])))
      && (forall k :: 0 <= k < arrayOfPolygon.Length && (k == 0 || j <= k) ==> arrayOfPolygon[k] == f0[k])
    }

    /**
      The second pass after the first n lines, with row counter i and face counter j: the
      rows, face slots and bounds have taken in exactly the "v " and "f " lines among them.
     */
    ghost predicate Reading(lines: seq<string>, scan: string -> Vertex, n: nat, i: nat, j: nat,
                            t0: seq<Vertex>, f0: seq<Facets>, b0: Box)
      reads this`matrix, matrix, this`arrayOfPolygon, arrayOfPolygon, this`bounds
    {
      && n <= |lines|
      && i == |TaggedLines(lines[..n], 'v')| + 1 && j == |TaggedLines(lines[..n], 'f')| + 1
      && RowsRead(VertexLines(lines), scan, i, t0) && FacesRead(FaceLines(lines), j, f0)
      && bounds == WidenAll(b0, Scanned(VertexLines(lines), scan)[..i - 1])
    }

    /** The branch of the second pass for a "v " line: its numbers go into row i, then minMax(i). */
    method ReadVertexLine(line: string, scan: string -> Vertex, i: nat,
                          ghost vl: seq<string>, ghost t0: seq<Vertex>, ghost b0: Box)
      requires RowsRead(vl, scan, i, t0) && i <= |vl| && vl[i - 1] == line
      requires bounds == WidenAll(b0, Scanned(vl, scan)[..i - 1])
      modifies matrix, this`bounds
      ensures RowsRead(vl, scan, i + 1, t0)
      ensures bounds == WidenAll(b0, Scanned(vl, scan)[..i])
    {
      var v := scan(line);
      matrix[i, 0], matrix[i, 1], matrix[i, 2] := v.x, v.y, v.z;
      MinMax(i);
      forall k | 0 <= k < matrix.Length0
        ensures Row(k) == if k == i then v else old(Row(k))
      {
      }
      assert forall k :: 1 <= k < i ==> Row(k) == scan(vl[k - 1]);
      assert Row(i) == scan(vl[i - 1]);
      WidenAllStep(b0, Scanned(vl, scan), i - 1);
    }

    /** The branch of the second pass for an "f " line: count the slots of face j, allocate them, parse into them. */
    method ReadFaceLine(line: string, j: nat, ghost fl: seq<string>, ghost f0: seq<Facets>)
      requires FacesRead(fl, j, f0) && j <= |fl| && fl[j - 1] == line
      modifies arrayOfPolygon
      ensures FacesRead(fl, j + 1, f0)
    {
      CountVertexesForPolygon(line, j);
      VertexesForPolygonMemoryAllocation(j);
      ghost var spec := FaceOf(line);
      assert spec.indices == IndexValues(Tokens(line));
      ParserVertexesForPolygon(line, j);
      assert arrayOfPolygon[j].vertexes[..|spec.indices|] == spec.indices;
    }

    /** One turn of the second pass: line n is a "v " line, an "f " line or neither. */
    method ReadLine(lines: seq<string>, scan: string -> Vertex, n: nat, i: nat, j: nat,
                    ghost t0: seq<Vertex>, ghost f0: seq<Facets>, ghost b0: Box) returns (i': nat, j': nat)
      requires n < |lines| && Reading(lines, scan, n, i, j, t0, f0, b0)
      modifies matrix, arrayOfPolygon, this`bounds
      ensures Reading(lines, scan, n + 1, i', j', t0, f0, b0)
    {
      var line := lines[n];
      LineStep(lines, n);
      i', j' := i, j;
      if IsVertexLine(line) {
        ReadVertexLine(line, scan, i, VertexLines(lines), t0, b0);
        i' := i + 1;
      }
      if IsFaceLine(line) {
        ReadFaceLine(line, j, FaceLines(lines), f0);
        j' := j + 1;
      }
    }

    /**
      The second pass: the k-th "v " line fills row k and widens the bounds, the k-th "f "
      line fills face slot k; row 0, face slot 0 and everything past the file's counts
      are left alone.
     */
    method SecondReadParser(lines: seq<string>, scan: string -> Vertex)
      requires Shaped() && |VertexLines(lines)| < matrix.Length0 && |FaceLines(lines)| < arrayOfPolygon.Length
      modifies matrix, arrayOfPolygon, this`bounds
      ensures forall k :: 1 <= k <= |VertexLines(lines)| ==> Row(k) == scan(VertexLines(lines)[k - 1])
      ensures forall k :: 0 <= k < matrix.Length0 && (k == 0 || |VertexLines(lines)| < k) ==> Row(k) == old(Row(k))
      ensures forall k :: 1 <= k <= |FaceLines(lines)| ==> Stores(arrayOfPolygon[k], FaceOf(FaceLines(lines)[k - 1]))
      ensures forall k :: 0 <= k < arrayOfPolygon.Length && (k == 0 || |FaceLines(lines)| < k) ==>
                arrayOfPolygon[k] == old(arrayOfPolygon[k])
      ensures bounds == WidenAll(old(bounds), Scanned(VertexLines(lines), scan))
    {
      ghost var t0, f0 := Table(), arrayOfPolygon[..];
      var i, j, n := 1, 1, 0;
      assert lines[..0] == [];
      while n < |lines|
        invariant Reading(lines, scan, n, i, j, t0, f0, old(bounds))
      {
        i, j := ReadLine(lines, scan, n, i, j, t0, f0, old(bounds));
        n := n + 1;
      }
      assert lines[..n] == lines;
      assert Scanned(VertexLines(lines), scan)[..i - 1] == Scanned(VertexLines(lines), scan);
    }

    /**
      coreParser: reset, count, allocate, fill. With `scan` a function of the line, the
      result depends on the lines alone; in the source a vertex line with fewer than three
      numbers leaves matrix cells that sscanf does not assign, so this holds there only
      when every "v " line carries three numbers.
     */
    method CoreParser(lines: seq<string>, scan: string -> Vertex)
      modifies this
      ensures Represents(lines, scan)
      ensures fresh(matrix) && fresh(arrayOfPolygon)
    {
      Initialize();
      FirstReadParser(lines);
      CreateMatrixOfVertexes();
      PolygonMemoryAllocation();
      SecondReadParser(lines, scan);
    }

    /**
      setInCenter: rows 1..countOfVertexes become (old - center) * zoom on every axis;
      the bounds, the counts and the faces are not touched.
     */
    method SetInCenter()
      requires Shaped() && (countOfVertexes < matrix.Length0 || countOfVertexes == 0)
      requires MaxExtent(bounds) != 0.0
      modifies matrix
      ensures forall k :: 0 <= k < matrix.Length0 ==>
                Row(k) == if 1 <= k <= countOfVertexes then Apply(Fit(bounds), old(Row(k))) else old(Row(k))
      ensures matrix.Length0 == countOfVertexes + 1 ==> Table() == Transformed(old(Table()), Fit(bounds))
    {
      var m := matrix;
      ghost var t0 := TableOf(m);
      var zoom := ViewportSpan / MaxExtent(bounds);
      var center := Center(bounds);
      ghost var fit := Fit(bounds);
      assert fit == Recentre(center, zoom);
      for i := 1 to countOfVertexes + 1
        invariant Swept(TableOf(m), t0, fit, i)
      {
        ghost var before := TableOf(m);
        ghost var v := Recentred(before[i], center, zoom);
        assert v == Apply(fit, before[i]);
        m[i, 0] := (m[i, 0] - center.x) * zoom;
        m[i, 1] := (m[i, 1] - center.y) * zoom;
        m[i, 2] := (m[i, 2] - center.z) * zoom;
        RowWritten(m, before, i, v);
        SweepTurn(before, t0, fit, i, v);
      }
      assert forall k :: 0 <= k < m.Length0 ==> Row(k) == TableOf(m)[k];
      if m.Length0 == countOfVertexes + 1 {
        SweepDone(TableOf(m), t0, fit, countOfVertexes + 1);
      }
    }

    /** Frees the matrix and the faces: counts and dimensions drop to 0, the bounds stay as they were. */
    method ReleaseResources()
      modifies this`matrix, this`arrayOfPolygon, this`countOfVertexes, this`countOfPolygons
      ensures countOfVertexes == 0 && countOfPolygons == 0
      ensures matrix.Length0 == 0 && matrix.Length1 == 0 && arrayOfPolygon.Length == 0
      ensures bounds == old(bounds)
    {
      matrix := new real[0, 0];
      arrayOfPolygon := new Facets[0];
      countOfVertexes := 0;
      countOfPolygons := 0;
    }
  }

  // ---------------------------------------------------------------------------
  // What a load means
  // ---------------------------------------------------------------------------

  /** The counts after a load are the numbers of lines whose first two characters are "v " and "f ". */
  lemma LoadedCounts(m: Model, lines: seq<string>, scan: string -> Vertex)
    requires m.Represents(lines, scan)
    ensures m.countOfVertexes == |TaggedPositions(lines, 'v')|
    ensures m.countOfPolygons == |TaggedPositions(lines, 'f')|
  {
    TaggedLinesCount(lines, 'v');
    TaggedLinesCount(lines, 'f');
  }

  /** Row k (k >= 1) holds the "v " line that has exactly k - 1 "v " lines before it in the file. */
  lemma LoadedRowComesFromLine(m: Model, lines: seq<string>, scan: string -> Vertex, k: nat)
    requires m.Represents(lines, scan) && 1 <= k < m.matrix.Length0
    ensures exists p :: 0 <= p < |lines| && IsVertexLine(lines[p])
                        && m.Row(k) == scan(lines[p]) && |TaggedLines(lines[..p], 'v')| == k - 1
  {
    KthTaggedLine(lines, 'v', k - 1);
  }

  /** Face slot k (k >= 1) holds the "f " line that has exactly k - 1 "f " lines before it in the file. */
  lemma LoadedFaceComesFromLine(m: Model, lines: seq<string>, scan: string -> Vertex, k: nat)
    requires m.Represents(lines, scan) && 1 <= k < m.arrayOfPolygon.Length
    ensures exists p :: 0 <= p < |lines| && IsFaceLine(lines[p])
                        && Stores(m.arrayOfPolygon[k], FaceOf(lines[p])) && |TaggedLines(lines[..p], 'f')| == k - 1
  {
    KthTaggedLine(lines, 'f', k - 1);
  }

  /**
    After a load with at least one vertex whose coordinates are finite doubles, each
    minimum is the least coordinate on its axis, and each maximum is at least every
    coordinate and at least DBL_MIN.
   */
  lemma LoadedBounds(m: Model, lines: seq<string>, scan: string -> Vertex, a: Axis)
    requires m.Represents(lines, scan) && m.matrix.Length0 >= 2
    requires forall k :: 1 <= k < m.matrix.Length0 ==> Coord(m.Row(k), a) <= DblMax
    ensures exists k :: 1 <= k < m.matrix.Length0 && Lo(m.bounds, a) == Coord(m.Row(k), a)
    ensures forall k :: 1 <= k < m.matrix.Length0 ==> Lo(m.bounds, a) <= Coord(m.Row(k), a) <= Hi(m.bounds, a)
    ensures DblMin <= Hi(m.bounds, a)
  {
    var vs := Scanned(VertexLines(lines), scan);
    assert forall i :: 0 <= i < |vs| ==> vs[i] == m.Row(i + 1);
    LoadedLowIsMinimum(vs, a);
    LoadedHighFromPositiveSentinel(vs, a);
    var i :| 0 <= i < |vs| && Lo(WidenAll(Sentinel, vs), a) == Coord(vs[i], a);
    assert Lo(m.bounds, a) == Coord(m.Row(i + 1), a);
    forall k | 1 <= k < m.matrix.Length0 ensures Lo(m.bounds, a) <= Coord(m.Row(k), a) <= Hi(m.bounds, a) {
      assert vs[k - 1] == m.Row(k);
    }
  }

  /** Two loads of the same lines agree on counts, rows, stored indices and bounds, whatever came before. */
  lemma ReloadAgrees(m1: Model, m2: Model, lines: seq<string>, scan: string -> Vertex)
    requires m1.Represents(lines, scan) && m2.Represents(lines, scan)
    ensures m1.countOfVertexes == m2.countOfVertexes && m1.countOfPolygons == m2.countOfPolygons
    ensures m1.matrix.Length0 == m2.matrix.Length0 && m1.bounds == m2.bounds
    ensures forall k :: 1 <= k < m1.matrix.Length0 ==> m1.Row(k) == m2.Row(k)
    ensures forall k :: 1 <= k < m1.arrayOfPolygon.Length ==>
              var f1, f2, ix := m1.arrayOfPolygon[k], m2.arrayOfPolygon[k], FaceOf(FaceLines(lines)[k - 1]).indices;
              f1.numbersOfVertexesForPolygon == f2.numbersOfVertexesForPolygon
              && f1.vertexes[..|ix|] == ix == f2.vertexes[..|ix|]
  {
  }
}
