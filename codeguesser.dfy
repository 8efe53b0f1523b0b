/**
 * CodeGuesser: a secret five-letter code drawn from a word list, and the scoring of each guess
 * letter by letter: green when in place, yellow when elsewhere among the first five letters of the
 * code, plain otherwise. Scored guesses are kept as the coloured strings the game prints.
 */
module CodeGuesserGame {
  import opened Wrappers
  import opened Toolkit

  /** The terminal colour codes `addGuess` uses: yellow, green and reset. */
  const YellowCode: string := "\U{1B}[43m"
  const GreenCode: string := "\U{1B}[42m"
  const ResetCode: string := "\U{1B}[0m"

  /** The message `generateRandomIndex` throws with on an empty word list. */
  const EmptyWordsMessage: string := "Size of words vector must be greater than 0"

  datatype Mark = Green | Yellow | Plain

  /** The letters the inner loop of `addGuess` searches: the code's first five, or all of a shorter one. */
  function CodePrefix(word: string): (p: string)
    ensures p == word[..if |word| < 5 then |word| else 5]
  {
    if |word| < 5 then word else word[..5]
  }

  /**
   * The mark of the guess's letter at `i`: green exactly when it is the code's letter there;
   * otherwise yellow exactly when it occurs among the code's first five letters, else plain.
   */
  function LetterMark(word: string, guess: string, i: nat): (m: Mark)
    requires i < |word| && i < |guess|
    ensures m == Green <==> word[i] == guess[i]
    ensures m == Yellow <==> word[i] != guess[i] && guess[i] in CodePrefix(word)
    ensures m == Plain <==> word[i] != guess[i] && guess[i] !in CodePrefix(word)
  {
    if word[i] == guess[i] then Green
    else if guess[i] in CodePrefix(word) then Yellow
    else Plain
  }

  /** One letter as it is printed: wrapped in its colour code and a reset, then a space. */
  function Colored(c: char, m: Mark): string
  {
    match m
    case Green => GreenCode + [c] + ResetCode + " "
    case Yellow => YellowCode + [c] + ResetCode + " "
    case Plain => [c] + " "
  }

  /** The coloured rendering of the guess's first `n` letters. */
  function Render(word: string, guess: string, n: nat): string
    requires n <= |word| && n <= |guess|
  {
    if n == 0 then "" else Render(word, guess, n - 1) + Colored(guess[n - 1], LetterMark(word, guess, n - 1))
  }

  /**
   * A guess is correct exactly when every one of its five letters is green; then it equals the
   * code in its first five letters.
   */
  lemma {:induction false} CorrectIffAllGreen(word: string, guess: string)
    requires |word| >= 5 && |guess| >= 5
    ensures (forall i :: 0 <= i < 5 ==> LetterMark(word, guess, i) == Green) <==> word[..5] == guess[..5]
  {
    if forall i :: 0 <= i < 5 ==> LetterMark(word, guess, i) == Green {
      forall i | 0 <= i < 5
        ensures word[..5][i] == guess[..5][i]
      {
        assert LetterMark(word, guess, i) == Green;
      }
    }
    if word[..5] == guess[..5] {
      forall i | 0 <= i < 5
        ensures LetterMark(word, guess, i) == Green
      {
        assert word[..5][i] == guess[..5][i];
      }
    }
  }

  /** A letter that occurs nowhere among the code's first five is never coloured. */
  lemma AbsentLetterPlain(word: string, guess: string, i: nat)
    requires |word| >= 5 && i < 5 && i < |guess| && guess[i] !in word[..5]
    ensures LetterMark(word, guess, i) == Plain
  {
    assert word[i] == word[..5][i];
  }

  /**
   * `generateRandomIndex`: an index into a list of `size` words, drawn uniformly in the source;
   * an empty list is an error.
   */
  method GenerateRandomIndex(size: nat) returns (r: Result<nat, string>)
    ensures r.Err? <==> size == 0
    ensures r.Err? ==> r.error == EmptyWordsMessage
    ensures r.Ok? ==> r.value < size
  {
    if size == 0 {
      return Err(EmptyWordsMessage);
    }
    var index: nat :| index < size;
    return Ok(index);
  }

  /**
   * The inner loop of `addGuess`: looks for the letter among the code's first five letters. A code
   * shorter than five letters without the letter makes the lookup run past its end.
   */
  method SearchCode(word: string, c: char) returns (r: Result<bool, string>)
    ensures r.Err? <==> |word| < 5 && c !in word
    ensures r.Ok? ==> (r.value <==> c in CodePrefix(word))
  {
    var j := 0;
    while j < 5
      invariant 0 <= j <= 5 && j <= |word|
      invariant forall k :: 0 <= k < j ==> word[k] != c
    {
      if j >= |word| {
        assert word[..j] == word;
        return Err("out of range");
      }
      if word[j] == c {
        assert j < 5 && word[j] == CodePrefix(word)[j];
        return Ok(true);
      }
      j := j + 1;
    }
    assert forall k :: 0 <= k < 5 ==> CodePrefix(word)[k] != c;
    return Ok(false);
  }

  class CodeGuesser {
    var words: seq<string>
    var guesses: seq<string>
    var index: nat

    ghost predicate Valid()
      reads this
    {
      index < |words|
    }

    /** The secret code. */
    function Code(): string
      requires Valid()
      reads this
    {
      words[index]
    }

    /**
     * `CodeGuesser::CodeGuesser`: the lines of the word file, one of them picked as the code, and
     * no guesses yet. An empty file makes the index draw fail.
     */
    constructor(wordsFile: string)
      requires wordsFile != []
      ensures Valid() && words == Split(wordsFile, '\n') && guesses == []
    {
      var lines := Split(wordsFile, '\n');
      var drawn := GenerateRandomIndex(|lines|);
      words := lines;
      guesses := [];
      index := drawn.value;
    }

    /**
     * `addGuess`: scores the guess letter by letter against the code and records its coloured
     * rendering; the result says whether all five letters were in place. A code or guess shorter
     * than five letters makes the letter lookups fail, and then nothing is recorded.
     */
    method AddGuess(guess: string) returns (r: Result<bool, string>)
      requires Valid()
      modifies this`guesses
      ensures r.Err? <==> |Code()| < 5 || |guess| < 5
      ensures r.Err? ==> guesses == old(guesses)
      ensures r.Ok? ==> guesses == old(guesses) + [Render(Code(), guess, 5)]
      ensures r.Ok? ==> (r.value <==> Code()[..5] == guess[..5])
    {
      var word := words[index];
      var coloredGuess := "";
      var correct := true;
      for i := 0 to 5
        invariant i <= |word| && i <= |guess| && guesses == old(guesses)
        invariant coloredGuess == Render(word, guess, i)
        invariant correct <==> word[..i] == guess[..i]
      {
        if i >= |word| || i >= |guess| {
          return Err("out of range");
        }
        assert word[..i + 1] == word[..i] + [word[i]] && guess[..i + 1] == guess[..i] + [guess[i]];
        if word[i] == guess[i] {
          coloredGuess := coloredGuess + (GreenCode + guess[i..i + 1] + ResetCode + " ");
          assert guess[i..i + 1] == [guess[i]];
          continue;
        } else {
          correct := false;
        }
        var found := SearchCode(word, guess[i]);
        if found.Err? {
          return Err(found.error);
        }
        var contains := found.value;
        assert guess[i..i + 1] == [guess[i]];
        if contains {
          coloredGuess := coloredGuess + (YellowCode + guess[i..i + 1] + ResetCode + " ");
        } else {
          coloredGuess := coloredGuess + (guess[i..i + 1] + " ");
        }
      }
      guesses := guesses + [coloredGuess];
      return Ok(correct);
    }

    /** `getGuessCount`: one per recorded guess. */
    function GetGuessCount(): (n: nat)
      reads this
      ensures n == |guesses|
    {
      |guesses|
    }

    /** `getLastGuess`: the latest recorded guess, or the empty string before any. */
    function GetLastGuess(): (g: string)
      reads this
      ensures guesses == [] ==> g == ""
      ensures guesses != [] ==> g == guesses[|guesses| - 1]
    {
      if guesses == [] then "" else guesses[|guesses| - 1]
    }
  }
}
