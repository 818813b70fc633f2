/** The audience renderer: placing the peers and finding the one under the pointer.  Drawing is left out. */
module Audience {
  import opened AudienceGeometry
  import opened Wrappers

  class RenderPeer {
    const userId: string
    var row: int
    var col: int
    var x: real
    var y: real

    constructor (userId: string)
      ensures this.userId == userId
    {
      this.userId := userId;
      row, col, x, y := 0, 0, 0.0, 0.0;
    }
  }

  class Renderer {
    var ordered: seq<RenderPeer>
    var width: real
    var height: real
    var rows: int
    var columns: int
    var padding: real
    var chess: bool
    var renderSize: real
    var cellSize: real
    var shift: real
    var offsetY: real
    ghost var layout: Layout

    ghost predicate Distinct()
      reads this
    {
      forall i, j :: 0 <= i < j < |ordered| ==> ordered[i] != ordered[j]
    }

    /** The fields hold `layout`. */
    ghost predicate Sized()
      reads this
    {
      && WellFormed(layout) && layout.n == |ordered|
      && rows == layout.rows && columns == layout.columns && chess == layout.chess
      && renderSize == layout.renderSize && cellSize == layout.cellSize && shift == layout.shift
      && padding == layout.padding && offsetY == layout.offsetY
    }

    ghost predicate PlacedAt(i: nat)
      requires layout.columns >= 1 && i < |ordered|
      reads this, ordered
    {
      var p := ordered[i];
      && p.row == Row(layout, i) && p.col == Col(layout, i)
      && p.x == X(layout, Row(layout, i), Col(layout, i)) && p.y == Y(layout, Row(layout, i))
    }

    ghost predicate PlacedUpTo(k: int)
      requires Sized()
      reads this, ordered
    {
      forall i: nat :: i < k && i < |ordered| ==> PlacedAt(i)
    }

    /** Either there is nobody, or everybody has been placed; the renderer starts with nobody. */
    ghost predicate Ready()
      reads this, ordered
    {
      Distinct() && (ordered == [] || (Sized() && PlacedUpTo(|ordered|)))
    }

    constructor (width: real, height: real)
      ensures Ready() && ordered == [] && this.width == width && this.height == height
    {
      this.width, this.height := width, height;
      ordered, rows, columns, padding, chess := [], 0, 0, 0.0, false;
      renderSize, cellSize, shift, offsetY := 0.0, 0.0, 0.0, 0.0;
    }

    method CalcPositions(root: real)
      requires Distinct() && width > 0.0 && height > 0.0 && root > 0.0
      modifies this, ordered
      ensures ordered == old(ordered) && width == old(width) && height == old(height)
      ensures Ready()
      ensures ordered != [] ==> layout == LayoutOf(|ordered|, width, height, root)
    {
      if |ordered| <= 0 {
        return;
      }
      CalcSizes(root);
      PlacePeers();
    }

    method CalcSizes(root: real)
      requires ordered != [] && width > 0.0 && height > 0.0 && root > 0.0
      modifies this
      ensures ordered == old(ordered) && width == old(width) && height == old(height)
      ensures Sized() && layout == LayoutOf(|ordered|, width, height, root)
    {
      hide GridOf, FittedCell, StackHeight, LayoutOf;
      var first := FirstRound(root);
      var fitted := FitCell(first);
      var size, actualHeight := Rescale(fitted);
      layout := Assemble(|ordered|, Grid(chess, columns, rows), size, actualHeight, width, height);
      LayoutFromRounds(|ordered|, width, height, root, Grid(chess, columns, rows), fitted, size);
      LayoutIsWellFormed(|ordered|, width, height, root);
      AssignSizes(size, actualHeight);
    }

    /** Approximates the cell and decides on the grid. */
    method FirstRound(root: real) returns (size: real)
      requires ordered != [] && width > 0.0 && root > 0.0
      modifies this`chess, this`columns, this`rows
      ensures size == Min(root, MAX_SIZE) && Grid(chess, columns, rows) == GridOf(|ordered|, width, size)
    {
      size := Min(root, MAX_SIZE);
      CeilPositive(width, size);
      chess := Ceil(width / size) < |ordered|;
      columns := if chess then Ceil(width / size) else |ordered|;
      rows := Ceil(|ordered| as real / columns as real);
    }

    /** Makes the columns fit the canvas. */
    method FitCell(first: real) returns (size: real)
      requires first > 0.0 && width > 0.0 && height > 0.0 && columns >= 1
      ensures size == FittedCell(first, width, height, columns)
    {
      size := Min(Min(first, width), height / COMPACTION);
      size := Min(size, (width - size / 2.0) / columns as real);
    }

    /** Makes the rows fit the canvas. */
    method Rescale(fitted: real) returns (size: real, actualHeight: real)
      requires fitted > 0.0 && height > 0.0 && rows >= 1
      ensures actualHeight == StackHeight(fitted, rows) > 0.0
      ensures size == Min(fitted, fitted * height / actualHeight)
    {
      hide StackHeight;
      actualHeight := fitted + (rows - 1) as real * fitted * COMPACTION;
      assert actualHeight == StackHeight(fitted, rows) by { StackIsSum(fitted, rows); }
      assert actualHeight > 0.0 by { StackPositive(fitted, rows); }
      size := Min(fitted, fitted * height / actualHeight);
    }

    method AssignSizes(size: real, actualHeight: real)
      requires layout == Assemble(|ordered|, Grid(chess, columns, rows), size, actualHeight, width, height)
      requires WellFormed(layout)
      modifies this`cellSize, this`offsetY, this`padding, this`shift, this`renderSize
      ensures Sized()
    {
      cellSize := size;
      offsetY := Min((cellSize / 2.0) * (SELECTED_SCALE - 1.0) + (cellSize * PADDING) / 2.0 + SELECTED_BORDER,
                     (height - actualHeight) / 2.0);
      padding := (width - size * (if columns <= |ordered| then columns else |ordered|) as real) / 2.0;
      if chess {
        shift := cellSize * 0.25;
        renderSize := cellSize * (1.0 - PADDING);
      } else {
        shift := 0.0;
        renderSize := cellSize * 0.95;
      }
    }

    method PlacePeers()
      requires Distinct() && ordered != [] && Sized()
      modifies ordered
      ensures Sized() && PlacedUpTo(|ordered|)
    {
      var index := 0;
      var row := 0;
      while row < rows
        invariant 0 <= row <= rows && 0 <= index <= |ordered|
        invariant index == row * columns
        invariant PlacedUpTo(index)
      {
        var rowShift := if row % 2 == 0 then shift else -shift;
        var col := 0;
        while col < columns
          invariant 0 <= col <= columns && index == row * columns + col && index <= |ordered|
          invariant PlacedUpTo(index)
        {
          if index >= |ordered| {
            return;
          }
          PlacePeer(index, row, col, rowShift);
          index := index + 1;
          col := col + 1;
        }
        row := row + 1;
        assert index == row * columns by { NextRow(row, columns); }
      }
    }

    lemma NextRow(row: int, k: int)
      ensures (row - 1) * k + k == row * k
    {
    }

    method PlacePeer(index: nat, row: int, col: int, rowShift: real)
      requires Distinct() && Sized() && index < |ordered| && PlacedUpTo(index)
      requires 0 <= col < columns && index == row * columns + col && rowShift == RowShift(layout, row)
      modifies ordered[index]
      ensures PlacedUpTo(index + 1)
    {
      hide X, Y;
      assert row == Row(layout, index) && col == Col(layout, index) by { DivModUnique(index, columns, row, col); }
      var peer := ordered[index];
      MovePeer(peer, row, col, rowShift);
      assert PlacedAt(index);
      forall i: nat | i < index ensures PlacedAt(i) {
        assert old(PlacedAt(i)) && ordered[i] != peer;
      }
    }

    method MovePeer(peer: RenderPeer, row: int, col: int, rowShift: real)
      requires peer in ordered && cellSize == layout.cellSize && padding == layout.padding && offsetY == layout.offsetY
      requires rowShift == RowShift(layout, row)
      modifies peer
      ensures peer.row == row && peer.col == col && peer.x == X(layout, row, col) && peer.y == Y(layout, row)
    {
      peer.row := row;
      peer.col := col;

      peer.x := col as real * cellSize;
      peer.x := peer.x + cellSize / 2.0;
      peer.x := peer.x + padding;
      peer.x := peer.x + rowShift;
      assert peer.x == X(layout, row, col);

      hide X;
      peer.y := row as real * cellSize;
      peer.y := peer.y * COMPACTION;
      peer.y := peer.y + cellSize / 2.0;
      peer.y := peer.y + offsetY;
    }

    /** The peer in a cell, by index. */
    method AtCell(row: int, col: int) returns (r: Option<nat>)
      requires Ready()
      ensures ordered == [] ==> r == None
      ensures ordered != [] ==> r == At(layout, row, col)
    {
      if row < 0 || row >= rows || col < 0 || col >= columns {
        return None;
      }
      var i := row * columns + col;
      if i < 0 || i >= |ordered| {
        return None;
      }
      return Some(i);
    }

    /* ---------- hit test ---------- */

    /** Squared distance of the point to peer i as placed. */
    function DistanceSq(i: nat, x: real, y: real): real
      requires i < |ordered|
      reads this, ordered
    {
      DistSq(ordered[i].x, ordered[i].y, x, y)
    }

    predicate Contains(i: nat, x: real, y: real)
      requires i < |ordered|
      reads this, ordered
    {
      DistanceSq(i, x, y) < RadiusSq(renderSize)
    }

    /** Brute force: peer i's disc contains the point, and no other containing disc is closer. */
    ghost predicate Closest(i: nat, x: real, y: real)
      reads this, ordered
    {
      && i < |ordered| && Contains(i, x, y)
      && forall j: nat :: j < |ordered| && Contains(j, x, y) ==> DistanceSq(i, x, y) <= DistanceSq(j, x, y)
    }

    ghost predicate Covered(x: real, y: real)
      reads this, ordered
    {
      exists i: nat :: i < |ordered| && Contains(i, x, y)
    }

    /** The three candidates see every disc that contains the point, in this part of the canvas. */
    ghost predicate InWindow(y: real)
      reads this
    {
      chess || y - offsetY < 0.9 * cellSize
    }

    /** The hit test agrees with brute force wherever its three rows reach: everywhere in staggered mode, and
        down to 0.9 of the cell in a single row; below that it finds nobody. */
    method HoverPeer(x: real, y: real) returns (r: Option<nat>)
      requires Ready()
      ensures r.Some? ==> Closest(r.value, x, y)
      ensures r.Some? <==> Covered(x, y) && InWindow(y)
    {
      if cellSize == 0.0 {
        return None;  // nothing has been placed yet: every lookup below fails
      }
      var bottom := ((y - offsetY) / cellSize / COMPACTION).Floor;
      var center := bottom - 1;
      var top := center - 1;
      var rowShift := if bottom % 2 == 0 then shift else -shift;
      var left := ((x - padding - rowShift) / cellSize).Floor;
      var right := ((x - padding + rowShift) / cellSize).Floor;

      var a := AtCell(top, left);
      var b := AtCell(center, right);
      var c := AtCell(bottom, left);
      var candidates := [a, b, c];
      assert ordered != [] ==> candidates == Candidates(layout, x, y);
      assert forall i: nat :: i < |ordered| && Contains(i, x, y) ==> (Some(i) in candidates <==> InWindow(y)) by {
        forall i: nat | i < |ordered| && Contains(i, x, y) ensures Some(i) in candidates <==> InWindow(y) {
          CandidatesSeeContaining(i, x, y);
        }
      }
      r := PickClosest(candidates, x, y);
    }

    lemma CandidatesSeeContaining(i: nat, x: real, y: real)
      requires Ready() && i < |ordered| && Contains(i, x, y)
      ensures Some(i) in Candidates(layout, x, y) <==> InWindow(y)
    {
      assert layout.columns >= 1 && layout.cellSize > 0.0;
      hide X, Y, Row, Col, RowShift, At, Candidates, WellFormed, DistSq, RadiusSq;
      assert PlacedAt(i);
      assert InDisc(layout, i, x, y);
      CandidatesSeeDisc(layout, i, x, y);
    }

    /** A single row where it does miss: the point is covered, and nobody is found. */
    lemma CoveredBelowWindow()
      requires Ready() && |ordered| == 1 && layout == LayoutOf(1, 100.0, 30.0, 100.0)
      ensures Covered(50.0, 18.0) && !InWindow(18.0)
    {
      LowIsALayout();
      HoverMissesLowPoint();
      assert PlacedAt(0);
      assert Contains(0, 50.0, 18.0);
    }

    /** The loop over the candidates, distances compared squared. */
    method PickClosest(candidates: seq<Option<nat>>, x: real, y: real) returns (r: Option<nat>)
      requires forall p :: p in candidates && p.Some? ==> p.value < |ordered|
      ensures r.Some? ==>
                && r in candidates && r.value < |ordered| && Contains(r.value, x, y)
                && forall j: nat :: j < |ordered| && Some(j) in candidates && Contains(j, x, y) ==>
                     DistanceSq(r.value, x, y) <= DistanceSq(j, x, y)
      ensures r == None ==> forall j: nat :: j < |ordered| && Some(j) in candidates ==> !Contains(j, x, y)
    {
      r := None;
      var minDist := 0.0;
      for k := 0 to |candidates|
        invariant r == None ==> forall j: nat :: j < |ordered| && Some(j) in candidates[..k] ==> !Contains(j, x, y)
        invariant r.Some? ==>
                    && r in candidates && r.value < |ordered| && Contains(r.value, x, y)
                    && minDist == DistanceSq(r.value, x, y)
                    && forall j: nat :: j < |ordered| && Some(j) in candidates[..k] && Contains(j, x, y) ==>
                         minDist <= DistanceSq(j, x, y)
      {
        var p := candidates[k];
        assert candidates[..k + 1] == candidates[..k] + [p];
        if p.None? {
          continue;
        }
        var dist := DistanceSq(p.value, x, y);
        if dist < RadiusSq(renderSize) && (r == None || dist < minDist) {
          r := p;
          minDist := dist;
        }
      }
    }

    /** The id of the peer under the pointer; an empty id reads as nobody. */
    method Hover(x: real, y: real) returns (id: Option<string>)
      requires Ready()
      ensures id.Some? ==> id.value != "" && exists i: nat :: Closest(i, x, y) && ordered[i].userId == id.value
      ensures id.Some? ==> Covered(x, y) && InWindow(y)
      ensures id.None? && Covered(x, y) && InWindow(y) ==> exists i: nat :: Closest(i, x, y) && ordered[i].userId == ""
    {
      var r := HoverPeer(x, y);
      if r.None? || ordered[r.value].userId == "" {
        id := None;
      } else {
        id := Some(ordered[r.value].userId);
      }
    }
  }
}
