/**
 * TicTacToe: a 3-by-3 board of ' ', 'X' and 'O' updated in place by the player's and the computer's
 * moves, and the win and game-over tests.
 */
module TicTacToeGame {

  /** The eight lines of the board, each as three (row, column) squares: rows, columns, diagonals. */
  const Lines: seq<seq<(int, int)>> := [
    [(0, 0), (0, 1), (0, 2)], [(1, 0), (1, 1), (1, 2)], [(2, 0), (2, 1), (2, 2)],
    [(0, 0), (1, 0), (2, 0)], [(0, 1), (1, 1), (2, 1)], [(0, 2), (1, 2), (2, 2)],
    [(0, 0), (1, 1), (2, 2)], [(0, 2), (1, 1), (2, 0)]
  ]

  class TicTacToe {
    const squares: array2<char>

    ghost predicate Valid()
      reads this
    {
      squares.Length0 == 3 && squares.Length1 == 3
    }

    /** Three equal symbols, none of them ' ', on the squares of `line`. */
    ghost predicate LineWon(line: seq<(int, int)>)
      requires Valid() && |line| == 3
      requires forall k :: 0 <= k < 3 ==> 0 <= line[k].0 < 3 && 0 <= line[k].1 < 3
      reads this, squares
    {
      squares[line[0].0, line[0].1] == squares[line[1].0, line[1].1] == squares[line[2].0, line[2].1] &&
      squares[line[0].0, line[0].1] != ' '
    }

    /** `TicTacToe()`: an empty board. */
    constructor()
      ensures Valid() && fresh(squares)
      ensures forall i, j :: 0 <= i < 3 && 0 <= j < 3 ==> squares[i, j] == ' '
    {
      squares := new char[3, 3]((i, j) => ' ');
    }

    /** `getSquare`: the symbol at a square given 0-based. */
    function GetSquare(row: int, col: int): (c: char)
      requires Valid() && 0 <= row < 3 && 0 <= col < 3
      reads this, squares
      ensures c == squares[row, col]
    {
      squares[row, col]
    }

    /**
     * `playerMove`: writes 'X' at the 0-based square when it is on the board and empty; otherwise
     * the board is unchanged. No other square ever changes.
     */
    method PlayerMove(row: int, col: int)
      requires Valid()
      modifies squares
      ensures Valid()
      ensures forall i, j :: 0 <= i < 3 && 0 <= j < 3 && (i, j) != (row, col) ==> squares[i, j] == old(squares[i, j])
      ensures 0 <= row < 3 && 0 <= col < 3 ==>
        squares[row, col] == if old(squares[row, col]) == ' ' then 'X' else old(squares[row, col])
    {
      if row >= 0 && row < 3 && col >= 0 && col < 3 && squares[row, col] == ' ' {
        squares[row, col] := 'X';
      }
    }

    /**
     * `computerTurn`: the rejection loop draws squares until it finds an empty one and writes 'O'
     * there. It ends only when the board has an empty square; the draw is a nondeterministic choice
     * among the empty squares.
     */
    method ComputerTurn() returns (row: int, col: int)
      requires Valid()
      requires exists i, j :: 0 <= i < 3 && 0 <= j < 3 && squares[i, j] == ' '
      modifies squares
      ensures Valid()
      ensures 0 <= row < 3 && 0 <= col < 3 && old(squares[row, col]) == ' ' && squares[row, col] == 'O'
      ensures forall i, j :: 0 <= i < 3 && 0 <= j < 3 && (i, j) != (row, col) ==> squares[i, j] == old(squares[i, j])
    {
      row, col :| 0 <= row < 3 && 0 <= col < 3 && squares[row, col] == ' ';
      squares[row, col] := 'O';
    }

    /** Some line of `Lines` is won: the board `checkForWin` reports as a win. */
    ghost predicate Won()
      requires Valid()
      reads this, squares
    {
      LinesOnBoard();
      exists k :: 0 <= k < 8 && LineWon(Lines[k])
    }

    /**
     * `checkForWin`: the rows, then the columns, then the two diagonals, each setting the flag when
     * its three squares hold equal symbols other than ' '. The flag ends set exactly when one of the
     * eight lines is won.
     */
    method CheckForWin() returns (wasWin: bool)
      requires Valid()
      ensures wasWin <==> Won()
    {
      LinesOnBoard();
      wasWin := false;
      for i := 0 to 3
        invariant wasWin <==> exists k :: 0 <= k < i && LineWon(Lines[k])
      {
        RowAndColumnLines(i);
        if squares[i, 0] == squares[i, 1] && squares[i, 0] == squares[i, 2] && squares[i, 0] != ' ' {
          wasWin := true;
        }
      }
      for i := 0 to 3
        invariant wasWin <==> exists k :: 0 <= k < 3 + i && LineWon(Lines[k])
      {
        RowAndColumnLines(i);
        if squares[0, i] == squares[1, i] && squares[0, i] == squares[2, i] && squares[0, i] != ' ' {
          wasWin := true;
        }
      }
      if squares[0, 0] == squares[1, 1] && squares[0, 0] == squares[2, 2] && squares[0, 0] != ' ' {
        wasWin := true;
      }
      assert LineWon(Lines[6]) <==> squares[0, 0] == squares[1, 1] && squares[0, 0] == squares[2, 2] && squares[0, 0] != ' ';
      if squares[0, 2] == squares[1, 1] && squares[0, 2] == squares[2, 0] && squares[0, 2] != ' ' {
        wasWin := true;
      }
      assert LineWon(Lines[7]) <==> squares[0, 2] == squares[1, 1] && squares[0, 2] == squares[2, 0] && squares[0, 2] != ' ';
    }

    /** Every line of `Lines` has three squares on the board. */
    static lemma LinesOnBoard()
      ensures forall k :: 0 <= k < 8 ==> |Lines[k]| == 3 && forall m :: 0 <= m < 3 ==> 0 <= Lines[k][m].0 < 3 && 0 <= Lines[k][m].1 < 3
    {
    }

    /** Line `i` of `Lines` is row `i`, and line `3 + i` is column `i`. */
    static lemma RowAndColumnLines(i: int)
      requires 0 <= i < 3
      ensures Lines[i] == [(i, 0), (i, 1), (i, 2)] && Lines[3 + i] == [(0, i), (1, i), (2, i)]
    {
      if i == 0 {
      } else if i == 1 {
      } else {
      }
    }

    /** `isValidMove`: a 1-based row and column on the board, that is, one naming one of its nine squares. */
    predicate IsValidMove(row: int, col: int)
      ensures IsValidMove(row, col) <==> exists k, m :: 0 <= k < 8 && 0 <= m < 3 && Lines[k][m] == (row - 1, col - 1)
    {
      LinesOnBoard();
      if row >= 1 && row <= 3 && col >= 1 && col <= 3 then
        RowAndColumnLines(row - 1);
        assert Lines[row - 1][col - 1] == (row - 1, col - 1);
        true
      else
        false
    }

    /** `makeMove`: writes the symbol at the 1-based square, and nowhere else. */
    method MakeMove(row: int, col: int, symbol: char)
      requires Valid() && IsValidMove(row, col)
      modifies squares
      ensures Valid()
      ensures squares[row - 1, col - 1] == symbol
      ensures forall i, j :: 0 <= i < 3 && 0 <= j < 3 && (i, j) != (row - 1, col - 1) ==> squares[i, j] == old(squares[i, j])
    {
      squares[row - 1, col - 1] := symbol;
    }

    /**
     * `isGameOver`'s decision: over when one of the eight lines is won, otherwise exactly when nine
     * moves have been made.
     */
    method IsGameOver(moveCount: int) returns (over: bool)
      requires Valid()
      ensures over <==> Won() || moveCount == 9
    {
      var won := CheckForWin();
      if won {
        over := true;
      } else {
        over := moveCount == 9;
      }
    }

    /** `setBoard`: copies every square of the given board. */
    method SetBoard(newBoard: array2<char>)
      requires Valid() && newBoard.Length0 == 3 && newBoard.Length1 == 3
      modifies squares
      ensures Valid()
      ensures forall i, j :: 0 <= i < 3 && 0 <= j < 3 ==> squares[i, j] == old(newBoard[i, j])
    {
      for i := 0 to 3
        invariant forall r, c :: 0 <= r < i && 0 <= c < 3 ==> squares[r, c] == old(newBoard[r, c])
        invariant forall r, c :: i <= r < 3 && 0 <= c < 3 ==> newBoard[r, c] == old(newBoard[r, c])
      {
        for j := 0 to 3
          invariant forall r, c :: 0 <= r < i && 0 <= c < 3 ==> squares[r, c] == old(newBoard[r, c])
          invariant forall c :: 0 <= c < j ==> squares[i, c] == old(newBoard[i, c])
          invariant forall r, c :: i <= r < 3 && 0 <= c < 3 && (r, c) != (i, 0) && (r > i || c >= j) ==> newBoard[r, c] == old(newBoard[r, c])
          invariant forall c :: j <= c < 3 ==> newBoard[i, c] == old(newBoard[i, c])
        {
          squares[i, j] := newBoard[i, j];
        }
      }
    }
  }

  /**
   * The moves the source's tests make on a fresh board: three 'X's along the top row win, and the
   * computer's reply on the board of one 'X' puts an 'O' on an empty square.
   */
  method TopRowScenario() returns (won: bool, computerPlaced: bool)
    ensures won && computerPlaced
  {
    var game := new TicTacToe();
    game.PlayerMove(0, 0);
    assert game.squares[1, 1] == ' ';
    var row, col := game.ComputerTurn();
    computerPlaced := game.squares[row, col] == 'O' && (row, col) != (0, 0);
    var board := new TicTacToe();
    board.PlayerMove(0, 0);
    board.PlayerMove(0, 1);
    board.PlayerMove(0, 2);
    assert board.squares[0, 0] == board.squares[0, 1] == board.squares[0, 2] == 'X';
    assert board.LineWon(Lines[0]);
    won := board.CheckForWin();
  }
}
