/** The running score of a play session. */
module Score {

  class ScoreManager {
    /** The score a session starts from. */
    const scoreDefault: real := 0.0
    var currentScore: real

    /** Construction resets the score to its default. */
    constructor ()
      ensures currentScore == scoreDefault == 0.0
    {
      new;
      ResetScore();
    }

    /** Puts the score back to its default. */
    method ResetScore()
      modifies this
      ensures currentScore == scoreDefault
    {
      currentScore := scoreDefault;
    }

    /** The default never changes and is 0. */
    function GetScoreDefault(): (r: real)
      ensures r == 0.0
    {
      scoreDefault
    }

    /** A read-only query: it reads the score and changes nothing. */
    function GetCurrentScore(): (r: real)
      reads this
      ensures r == currentScore
    {
      currentScore
    }

    /** Adds exactly `value`; the default is untouched. */
    method AddScore(value: real)
      modifies this
      ensures currentScore == old(currentScore) + value
    {
      currentScore := currentScore + value;
    }
  }
}
