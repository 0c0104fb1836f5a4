/**
 * Where the two stores agree and where their policies part: the raw HTTP
 * server (score.py) merges the seed names on every load and refuses an
 * unknown person, while the Flask application (respect_score.py) returns the
 * file as stored and ignores an unknown person.
 */
module Variants {
  import opened Scoreboard
  import ScoreHandler
  import ScoreApp

  /**
   * On a file that parses, the two loads return the same board exactly when
   * the file already has all three seed names.
   */
  lemma LoadsAgreeExactlyOnCompleteFiles(stored: Board, writeOk: bool)
    ensures ScoreApp.LoadOutcome(Holds(stored), writeOk).scores
              == ScoreHandler.LoadOutcome(Holds(stored), writeOk).scores
            <==> Defaults().Keys <= stored.Keys
  {
    if Defaults().Keys <= stored.Keys {
      ScoreHandler.WithDefaultsKeepsCompleteBoard(stored);
    } else {
      var name :| name in Defaults().Keys && name !in stored;
      assert name in ScoreHandler.LoadOutcome(Holds(stored), writeOk).scores.value;
    }
  }

  /**
   * On a missing file whose creation goes through, both loads return the
   * seed board and leave it in the file.
   */
  lemma LoadsAgreeOnMissingFile()
    ensures ScoreApp.LoadOutcome(Missing, true)
              == ScoreApp.Read(ScoreHandler.LoadOutcome(Missing, true).scores, ScoreHandler.LoadOutcome(Missing, true).file)
  {
  }

  /**
   * On a file that holds a complete board, an integer change to a known
   * person gets the same answer and leaves the same file in both stores
   * when every write goes through.
   */
  lemma KnownPersonUpdatesAgree(stored: Board, person: string, change: Change)
    requires Defaults().Keys <= stored.Keys
    requires person in stored && IsInteger(change)
    ensures ScoreApp.UpdateOutcome(Holds(stored), Object(Some(person), change), true, true)
              == ScoreHandler.UpdateOutcome(Holds(stored), Object(Some(person), change), true, true)
  {
    ScoreHandler.WithDefaultsKeepsCompleteBoard(stored);
    ScoreHandler.UpdateAppliesKnownChange(Holds(stored), person, change, true, true);
    ScoreApp.UpdateAppliesKnownChange(Holds(stored), person, change, true, true);
  }

  /**
   * An unknown person on a complete board: the raw HTTP server answers 400,
   * the Flask application answers 200 with the board unchanged, and neither
   * writes the file.
   */
  lemma UnknownPersonPoliciesDiffer(stored: Board, person: string, change: Change)
    requires Defaults().Keys <= stored.Keys
    requires person !in stored
    ensures ScoreHandler.UpdateOutcome(Holds(stored), Object(Some(person), change), true, true)
              == Answered(BadRequest, Holds(stored))
    ensures ScoreApp.UpdateOutcome(Holds(stored), Object(Some(person), change), true, true)
              == Answered(Ok(stored), Holds(stored))
  {
    ScoreHandler.WithDefaultsKeepsCompleteBoard(stored);
  }

  /**
   * An empty name has no special treatment: a board that stores it as a
   * key makes it a known person in both stores.
   */
  lemma EmptyNameIsKnownWhenStored(score: int, change: int)
    ensures var stored := map["" := score];
            ScoreApp.UpdateOutcome(Holds(stored), Object(Some(""), Int(change)), true, true).response
              == Ok(stored["" := score + change])
    ensures var stored := map["" := score];
            ScoreHandler.UpdateOutcome(Holds(stored), Object(Some(""), Int(change)), true, true).response
              == Ok(ScoreHandler.WithDefaults(stored)["" := score + change])
  {
  }

  /**
   * A file that is not valid UTF-8: the raw HTTP server catches the decode
   * error of an update as a `ValueError` and answers 400, the Flask
   * application lets it through as a 500; neither touches the file.
   */
  lemma UndecodableFileHandling(body: Body)
    requires body.Object?
    ensures ScoreHandler.UpdateOutcome(Undecodable, body, true, true) == Answered(BadRequest, Undecodable)
    ensures ScoreApp.UpdateOutcome(Undecodable, body, true, true) == Answered(Crashed, Undecodable)
  {
  }
}
