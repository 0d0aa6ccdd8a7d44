/** Field constraints of backend/app/models/board.py. */
module BoardModels {
  import opened Common

  const DefaultGridCols: int := 3
  const MinGridCols: int := 1
  const MaxGridCols: int := 6

  predicate ValidGridCols(n: int)
  {
    MinGridCols <= n <= MaxGridCols
  }

  /** BoardBase / BoardCreate. */
  datatype BoardCreate = BoardCreate(
    neighborhood: string,
    slug: string,
    displayName: string,
    description: Option<string>,
    gridCols: int,
    metadata: Option<map<string, string>>)

  predicate ValidBoardCreate(b: BoardCreate)
  {
    ValidGridCols(b.gridCols)
  }

  /** A BoardCreate given only its required fields: three columns, no
      description and an empty metadata dict. */
  function BoardCreateWithDefaults(neighborhood: string, slug: string, displayName: string)
    : (r: BoardCreate)
    ensures r.gridCols == 3 && ValidBoardCreate(r)
    ensures r.description.None? && r.metadata == Some(map[])
  {
    BoardCreate(neighborhood, slug, displayName, None, DefaultGridCols, Some(map[]))
  }

  /** BoardUpdate: every field is optional, and an optional column may also be
      set to null. */
  datatype BoardUpdate = BoardUpdate(
    displayName: Patch<string>,
    description: Patch<Option<string>>,
    gridCols: Patch<Option<int>>,
    metadata: Patch<Option<map<string, string>>>)

  /** `grid_cols`, when given a value, must lie in 1..6. */
  predicate ValidBoardUpdate(u: BoardUpdate)
  {
    u.gridCols.Set? && u.gridCols.value.Some? ==> ValidGridCols(u.gridCols.value.value)
  }

  /** A stored board.  `grid_rows` is optional and carries no bound. */
  datatype Board = Board(
    id: Uuid,
    neighborhood: string,
    slug: string,
    displayName: string,
    description: Option<string>,
    gridCols: Option<int>,
    gridRows: Option<int>,
    metadata: Option<map<string, string>>)

  predicate ValidBoard(b: Board)
  {
    b.gridCols.Some? && ValidGridCols(b.gridCols.value)
  }

  function ApplyBoardUpdate(b: Board, u: BoardUpdate): (r: Board)
    ensures r.id == b.id && r.neighborhood == b.neighborhood && r.slug == b.slug
    ensures r.gridRows == b.gridRows
    ensures u.gridCols.Unset? ==> r.gridCols == b.gridCols
  {
    b.(displayName := Patched(u.displayName, b.displayName),
       description := Patched(u.description, b.description),
       gridCols := Patched(u.gridCols, b.gridCols),
       metadata := Patched(u.metadata, b.metadata))
  }

  /** Every field is optional: for any target that differs from a board only
      in the updatable columns, the update that sets exactly the differing
      fields (and leaves the rest unset) produces that target. */
  lemma AnySubsetOfFieldsUpdatable(b: Board, target: Board)
    requires target.id == b.id && target.neighborhood == b.neighborhood
    requires target.slug == b.slug && target.gridRows == b.gridRows
    ensures ApplyBoardUpdate(b, BoardUpdate(
              if target.displayName == b.displayName then Unset else Set(target.displayName),
              if target.description == b.description then Unset else Set(target.description),
              if target.gridCols == b.gridCols then Unset else Set(target.gridCols),
              if target.metadata == b.metadata then Unset else Set(target.metadata))) == target
  {
  }

  /** A validated update that does not null out `grid_cols` keeps a valid
      board valid; `grid_rows` is never constrained. */
  lemma UpdateKeepsBoardValid(b: Board, u: BoardUpdate, rows: Option<int>)
    requires ValidBoard(b) && ValidBoardUpdate(u) && u.gridCols != Set(None)
    ensures ValidBoard(ApplyBoardUpdate(b, u))
    ensures ValidBoard(ApplyBoardUpdate(b, u).(gridRows := rows))
  {
  }

  /** Nulling `grid_cols` passes BoardUpdate's validation but leaves a board
      without a column count. */
  lemma NullGridColsPassesValidation(b: Board)
    ensures ValidBoardUpdate(BoardUpdate(Unset, Unset, Set(None), Unset))
    ensures !ValidBoard(ApplyBoardUpdate(b, BoardUpdate(Unset, Unset, Set(None), Unset)))
  {
  }
}
