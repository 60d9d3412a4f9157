/** Addressing of frames in a sprite-sheet atlas: frames are cells of a grid,
    laid out row by row, `FramesPerRow` cells to a row. The same formula is used
    by the animation clip (Animation.cpp) and by the player (Player.cpp). */
module Atlas {
  import opened Geometry

  /** How many whole frames fit side by side in one row of the atlas. */
  function FramesPerRow(atlasWidth: nat, frameWidth: nat): nat
    requires frameWidth > 0
  {
    atlasWidth / frameWidth
  }

  /** The atlas cell of frame number `frame`: column `frame % perRow`,
      row `frame / perRow`, one frame in size. */
  function GridRect(frame: nat, frameWidth: nat, frameHeight: nat, atlasWidth: nat): (r: TexRect)
    requires frameWidth > 0 && FramesPerRow(atlasWidth, frameWidth) > 0
    ensures r.width == frameWidth && r.height == frameHeight
    ensures r.left % frameWidth == 0 && r.left + r.width <= atlasWidth
    ensures frameHeight > 0 ==> r.top % frameHeight == 0
    ensures frameHeight == 0 ==> r.top == 0
    ensures frame < FramesPerRow(atlasWidth, frameWidth) ==> r.top == 0
  {
    var perRow := FramesPerRow(atlasWidth, frameWidth);
    var col, row := frame % perRow, frame / perRow;
    GridCellFacts(frame, perRow, col, row, frameWidth, frameHeight, atlasWidth);
    TexRect(col * frameWidth, row * frameHeight, frameWidth, frameHeight)
  }

  /** The arithmetic behind `GridRect`'s contract, for column `col` and row
      `row` of `frame`. */
  lemma GridCellFacts(frame: nat, perRow: nat, col: nat, row: nat, frameWidth: nat, frameHeight: nat, atlasWidth: nat)
    requires frameWidth > 0 && perRow == atlasWidth / frameWidth && perRow > 0
    requires col == frame % perRow && row == frame / perRow
    ensures (col * frameWidth) % frameWidth == 0 && col * frameWidth + frameWidth <= atlasWidth
    ensures frameHeight > 0 ==> (row * frameHeight) % frameHeight == 0
    ensures frameHeight == 0 ==> row * frameHeight == 0
    ensures frame < perRow ==> row * frameHeight == 0
  {
    ColumnFits(col, perRow, frameWidth, atlasWidth);
    MultipleMod(col, frameWidth);
    RowMultiple(row, frameHeight);
    if frame < perRow {
      DivModUnique(frame, perRow, 0, frame);
    }
  }

  /** The frame number shown by an atlas cell: the inverse of `GridRect`. */
  function FrameAt(r: TexRect, frameWidth: nat, frameHeight: nat, atlasWidth: nat): int
    requires frameWidth > 0 && frameHeight > 0
  {
    (r.top / frameHeight) * FramesPerRow(atlasWidth, frameWidth) + r.left / frameWidth
  }

  lemma MultipleMod(a: nat, b: nat)
    requires b > 0
    ensures (a * b) % b == 0 && (a * b) / b == a
  {
    DivModUnique(a * b, b, a, 0);
  }

  /** Quotient and remainder are the only pair that rebuilds `x`. */
  lemma DivModUnique(x: int, b: int, q: int, m: int)
    requires b > 0 && 0 <= m < b && x == q * b + m
    ensures x / b == q && x % b == m
  {
    var q', m' := x / b, x % b;
    assert x == q' * b + m';
    assert (q - q') * b == m' - m;
    if q - q' >= 1 {
      MulMono(1, q - q', b);
    } else if q' - q >= 1 {
      MulMono(1, q' - q, b);
    }
  }

  lemma MulMono(a: int, c: int, b: int)
    requires a <= c && b >= 0
    ensures a * b <= c * b
  {
    assert c * b - a * b == (c - a) * b;
  }

  lemma RowMultiple(row: nat, frameHeight: nat)
    ensures frameHeight > 0 ==> (row * frameHeight) % frameHeight == 0
    ensures frameHeight == 0 ==> row * frameHeight == 0
  {
    if frameHeight > 0 { MultipleMod(row, frameHeight); }
  }

  lemma ColumnFits(col: nat, perRow: nat, frameWidth: nat, atlasWidth: nat)
    requires frameWidth > 0 && perRow == atlasWidth / frameWidth && col < perRow
    ensures col * frameWidth + frameWidth <= atlasWidth
  {
    assert col * frameWidth + frameWidth == (col + 1) * frameWidth;
    MulMono(col + 1, perRow, frameWidth);
    assert atlasWidth == perRow * frameWidth + atlasWidth % frameWidth;
  }

  /** Distinct frames occupy distinct cells: reading the frame number back from
      the cell `GridRect` selects gives the frame that was asked for. */
  lemma GridRectRoundTrip(frame: nat, frameWidth: nat, frameHeight: nat, atlasWidth: nat)
    requires frameWidth > 0 && FramesPerRow(atlasWidth, frameWidth) > 0
    ensures GridRect(frame, frameWidth, frameHeight, atlasWidth).left / frameWidth == frame % FramesPerRow(atlasWidth, frameWidth)
    ensures frameHeight > 0 ==>
              FrameAt(GridRect(frame, frameWidth, frameHeight, atlasWidth), frameWidth, frameHeight, atlasWidth) == frame
  {
    MultipleMod(frame % FramesPerRow(atlasWidth, frameWidth), frameWidth);
    if frameHeight > 0 {
      var perRow := FramesPerRow(atlasWidth, frameWidth);
      MultipleMod(frame % perRow, frameWidth);
      MultipleMod(frame / perRow, frameHeight);
    }
  }

  /** A frame that lies within the first `atlasHeight / frameHeight` rows gets a
      cell that lies wholly inside the atlas image. */
  lemma GridRectInsideAtlas(frame: nat, frameWidth: nat, frameHeight: nat, atlasWidth: nat, atlasHeight: nat)
    requires frameWidth > 0 && frameHeight > 0 && FramesPerRow(atlasWidth, frameWidth) > 0
    requires frame < FramesPerRow(atlasWidth, frameWidth) * (atlasHeight / frameHeight)
    ensures var r := GridRect(frame, frameWidth, frameHeight, atlasWidth);
            r.left + r.width <= atlasWidth && r.top + r.height <= atlasHeight
  {
    var perRow := FramesPerRow(atlasWidth, frameWidth);
    var rows := atlasHeight / frameHeight;
    var row := frame / perRow;
    assert frame == row * perRow + frame % perRow;
    if row >= rows {
      MulMono(rows, row, perRow);
    }
    ColumnFits(row, rows, frameHeight, atlasHeight);
  }
}
