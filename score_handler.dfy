/**
 * The score store behind the raw HTTP server (score.py, class
 * RespectScoreHandler). Loading merges the three seed names into whatever the
 * file holds, recovers a missing, unreadable or unparsable file by resetting it
 * to the seed board, and swallows write errors; POST /api/update rejects an
 * unknown person or a non-integer change with 400. A file that is not valid
 * UTF-8 is the one case the load does not recover from: it raises.
 *
 * Each request is one atomic step: the process-wide lock of the source only
 * makes the read-modify-write indivisible, so requests are modelled as
 * running one after the other. Whether a write to the file goes through is a
 * parameter of every operation that writes.
 */
module ScoreHandler {
  import opened Scoreboard

  /** What load_scores returns (None when it raises), and the file it leaves behind. */
  datatype Loaded = Loaded(scores: Option<Board>, file: FileState)

  /** The stored board with every seed name it lacks added at 0. */
  function WithDefaults(stored: Board): (merged: Board)
    ensures merged.Keys == stored.Keys + Defaults().Keys
    ensures forall name :: name in stored ==> merged[name] == stored[name]
    ensures forall name :: name in merged && name !in stored ==> merged[name] == 0
  {
    Defaults() + stored
  }

  /**
   * The merge loop of load_scores: walks the seed names in order and adds
   * each one the stored board lacks, with its seed value.
   */
  method MergeDefaults(stored: Board) returns (merged: Board)
    ensures merged == WithDefaults(stored)
  {
    var seed := Defaults();
    merged := stored;
    for i := 0 to |DefaultNames|
      invariant merged.Keys == stored.Keys + set j | 0 <= j < i :: DefaultNames[j]
      invariant forall name :: name in stored ==> merged[name] == stored[name]
      invariant forall name :: name in merged && name !in stored ==> merged[name] == 0
    {
      var person := DefaultNames[i];
      if person !in merged {
        merged := merged[person := seed[person]];
      }
    }
    assert (set j | 0 <= j < |DefaultNames| :: DefaultNames[j]) == Defaults().Keys;
  }

  /**
   * load_scores: a file that parses is returned with the seed names merged
   * in and is not written; a missing, unreadable or unparsable file yields
   * the seed board and is overwritten with it when the write goes through;
   * a file that is not valid UTF-8 raises and is left as it is.
   */
  function LoadOutcome(file: FileState, writeOk: bool): (r: Loaded)
    ensures r.scores.None? <==> file.Undecodable?
    ensures r.scores.Some? ==> Defaults().Keys <= r.scores.value.Keys
    ensures file.Holds? ==> r.file == file && r.scores.Some?
    ensures file.Holds? ==> r.scores.value.Keys == file.board.Keys + Defaults().Keys
    ensures file.Holds? ==> forall name :: name in file.board ==> r.scores.value[name] == file.board[name]
    ensures file.Holds? ==> forall name :: name in r.scores.value && name !in file.board ==> r.scores.value[name] == 0
    ensures file.Missing? || file.Corrupt? ==> r.scores == Some(Defaults())
    ensures r.file != file <==> (file.Missing? || file.Corrupt?) && writeOk
    ensures r.file != file ==> r.file == Holds(Defaults())
  {
    match file
    case Holds(stored) => Loaded(Some(WithDefaults(stored)), file)
    case Undecodable => Loaded(None, file)
    case _ => Loaded(Some(Defaults()), Written(file, Defaults(), writeOk))
  }

  /**
   * The check and the in-place update of the locked block of do_POST:
   * accepted exactly when the person is a key of the loaded board and the
   * change passes `isinstance(change, int)`; then only that key moves, by
   * the change.
   */
  function ApplyChange(scores: Board, person: Option<string>, change: Change): (r: Option<Board>)
    ensures r.Some? <==> person.Some? && person.value in scores && IsInteger(change)
    ensures r.Some? ==> r.value.Keys == scores.Keys
    ensures r.Some? ==> r.value[person.value] == scores[person.value] + Delta(change)
    ensures r.Some? ==> forall name :: name in scores && name != person.value ==> r.value[name] == scores[name]
  {
    if person.Some? && person.value in scores && IsInteger(change) then
      Some(Bumped(scores, person.value, Delta(change)))
    else
      None
  }

  /**
   * POST /api/update as one atomic step. A body that is not JSON is answered
   * 400 and one that is not an object raises, both before the file is
   * touched. Otherwise the board is loaded (which may reset the file); a
   * load that raises `UnicodeDecodeError` is caught as a `ValueError` and
   * answered 400; the change is applied or refused with 400, and an
   * accepted board is saved and answered 200 whether or not the save went
   * through.
   */
  function UpdateOutcome(file: FileState, body: Body, loadWriteOk: bool, saveWriteOk: bool): (r: Answered)
    ensures body.Malformed? ==> r == Answered(BadRequest, file)
    ensures body.NotObject? ==> r == Answered(Crashed, file)
    ensures body.Object? && file.Undecodable? ==> r == Answered(BadRequest, file)
    ensures r.response.Ok? ==> Defaults().Keys <= r.response.scores.Keys
    ensures r.file != file ==> r.file.Holds? && Defaults().Keys <= r.file.board.Keys
  {
    match body
    case Malformed => Answered(BadRequest, file)
    case NotObject => Answered(Crashed, file)
    case Object(person, change) =>
      var loaded := LoadOutcome(file, loadWriteOk);
      match loaded.scores
      case None => Answered(BadRequest, loaded.file)
      case Some(scores) =>
        match ApplyChange(scores, person, change)
        case None => Answered(BadRequest, loaded.file)
        case Some(updated) => Answered(Ok(updated), Written(loaded.file, updated, saveWriteOk))
  }

  /** Merging the seed names into a board that already has them changes nothing. */
  lemma WithDefaultsKeepsCompleteBoard(scores: Board)
    requires Defaults().Keys <= scores.Keys
    ensures WithDefaults(scores) == scores
  {
  }

  /** Two GET /api/scores with nothing in between answer the same board, whatever the writes do. */
  lemma GetIsIdempotent(file: FileState, firstWriteOk: bool, secondWriteOk: bool)
    ensures var first := LoadOutcome(file, firstWriteOk);
            LoadOutcome(first.file, secondWriteOk).scores == first.scores
  {
    var first := LoadOutcome(file, firstWriteOk);
    if first.file.Holds? {
      WithDefaultsKeepsCompleteBoard(first.scores.value);
    }
  }

  /** Saving what a load returned and loading again gives back the same board. */
  lemma SaveOfLoadRoundTrips(file: FileState, loadWriteOk: bool, reloadWriteOk: bool)
    ensures var loaded := LoadOutcome(file, loadWriteOk);
            loaded.scores.Some? ==>
              LoadOutcome(Written(loaded.file, loaded.scores.value, true), reloadWriteOk).scores == loaded.scores
  {
    var loaded := LoadOutcome(file, loadWriteOk);
    if loaded.scores.Some? {
      WithDefaultsKeepsCompleteBoard(loaded.scores.value);
    }
  }

  /**
   * Saving what a load returned leaves the file as it was exactly when the
   * file already held a board with all three seed names: a board that lacks
   * one gains it, and a missing, unreadable or unparsable file is replaced
   * by the seed board. (A file that is not valid UTF-8 raises on load, so
   * nothing is saved.)
   */
  lemma SaveOfLoadKeepsFileIffComplete(file: FileState, loadWriteOk: bool)
    ensures var loaded := LoadOutcome(file, loadWriteOk);
            (loaded.scores.Some? && Written(loaded.file, loaded.scores.value, true) == file)
            <==> file.Holds? && Defaults().Keys <= file.board.Keys
  {
    if file.Holds? && Defaults().Keys <= file.board.Keys {
      WithDefaultsKeepsCompleteBoard(file.board);
    }
  }

  /**
   * A known person with an integer change: 200 with the loaded board moved
   * by the change at that key only, and that whole board saved.
   */
  lemma UpdateAppliesKnownChange(file: FileState, person: string, change: Change, loadWriteOk: bool, saveWriteOk: bool)
    requires IsInteger(change)
    requires var loaded := LoadOutcome(file, loadWriteOk); loaded.scores.Some? && person in loaded.scores.value
    ensures var loaded := LoadOutcome(file, loadWriteOk);
            var updated := Bumped(loaded.scores.value, person, Delta(change));
            UpdateOutcome(file, Object(Some(person), change), loadWriteOk, saveWriteOk)
              == Answered(Ok(updated), Written(loaded.file, updated, saveWriteOk))
  {
  }

  /**
   * An absent or unknown person, or a change that is not an integer: 400,
   * and the file is left as the load left it (no update save).
   */
  lemma UpdateRejectsInvalidRequest(file: FileState, person: Option<string>, change: Change, loadWriteOk: bool, saveWriteOk: bool)
    requires var loaded := LoadOutcome(file, loadWriteOk);
             loaded.scores.Some? && !(person.Some? && person.value in loaded.scores.value && IsInteger(change))
    ensures UpdateOutcome(file, Object(person, change), loadWriteOk, saveWriteOk)
              == Answered(BadRequest, LoadOutcome(file, loadWriteOk).file)
  {
  }

  /** A failed save is swallowed: still 200 with the new board, but the file is as the load left it. */
  lemma FailedSaveIsSwallowed(file: FileState, body: Body, loadWriteOk: bool)
    requires UpdateOutcome(file, body, loadWriteOk, false).response.Ok?
    ensures body.Object?
    ensures UpdateOutcome(file, body, loadWriteOk, false).file == LoadOutcome(file, loadWriteOk).file
  {
  }

  /**
   * An accepted update whose save went through is durable: the next load
   * returns exactly the board the update answered. This is also how the
   * seed names merged in by a load reach the file.
   */
  lemma AcceptedUpdateIsDurable(file: FileState, body: Body, loadWriteOk: bool, reloadWriteOk: bool)
    requires UpdateOutcome(file, body, loadWriteOk, true).response.Ok?
    ensures var answered := UpdateOutcome(file, body, loadWriteOk, true);
            answered.file == Holds(answered.response.scores)
            && LoadOutcome(answered.file, reloadWriteOk).scores == Some(answered.response.scores)
  {
    var answered := UpdateOutcome(file, body, loadWriteOk, true);
    WithDefaultsKeepsCompleteBoard(answered.response.scores);
  }

  /** The file after one update per change to the same person, in order, every write going through. */
  function UpdateAll(file: FileState, person: string, deltas: seq<int>): FileState
    decreases |deltas|
  {
    if deltas == [] then file
    else UpdateAll(UpdateOutcome(file, Object(Some(person), Int(deltas[0])), true, true).file, person, deltas[1..])
  }

  /**
   * Serialised updates to one person lose nothing: starting from any file
   * whose load has the person, the next load after the updates returns the
   * loaded board with that score moved by the sum of the changes and every
   * other score as it was.
   */
  lemma {:induction false} UpdatesAccumulate(file: FileState, person: string, deltas: seq<int>)
    requires var loaded := LoadOutcome(file, true); loaded.scores.Some? && person in loaded.scores.value
    ensures var start := LoadOutcome(file, true).scores.value;
            LoadOutcome(UpdateAll(file, person, deltas), true).scores == Some(Bumped(start, person, Sum(deltas)))
    decreases |deltas|
  {
    var start := LoadOutcome(file, true).scores.value;
    if deltas == [] {
      assert Bumped(start, person, 0) == start;
    } else {
      var once := Bumped(start, person, deltas[0]);
      UpdateAppliesKnownChange(file, person, Int(deltas[0]), true, true);
      assert UpdateOutcome(file, Object(Some(person), Int(deltas[0])), true, true).file == Holds(once);
      WithDefaultsKeepsCompleteBoard(once);
      assert LoadOutcome(Holds(once), true).scores == Some(once);
      UpdatesAccumulate(Holds(once), person, deltas[1..]);
      BumpedTwice(start, person, deltas[0], Sum(deltas[1..]));
    }
  }

  /**
   * The class-level state the handler shares between requests: the content
   * of the scores file.
   */
  class Store {
    var file: FileState

    constructor (file: FileState)
      ensures this.file == file
    {
      this.file := file;
    }

    /** save_scores: replaces the file with the whole board; a write error is swallowed. */
    method SaveScores(scores: Board, writeOk: bool)
      modifies this
      ensures file == Written(old(file), scores, writeOk)
    {
      if writeOk {
        file := Holds(scores);
      }
    }

    /** load_scores; None when it raises. */
    method LoadScores(writeOk: bool) returns (scores: Option<Board>)
      modifies this
      ensures Loaded(scores, file) == LoadOutcome(old(file), writeOk)
    {
      match file
      case Holds(stored) =>
        var merged := MergeDefaults(stored);
        scores := Some(merged);
      case Undecodable =>
        scores := None;
      case _ =>
        var seed := Defaults();
        SaveScores(seed, writeOk);
        scores := Some(seed);
    }

    /** GET /api/scores: 200 with what load_scores returns, or the exception it raised. */
    method GetScores(writeOk: bool) returns (response: Response)
      modifies this
      ensures Answered(response, file) == var loaded := LoadOutcome(old(file), writeOk); Answered(AsResponse(loaded.scores), loaded.file)
    {
      var scores := LoadScores(writeOk);
      response := AsResponse(scores);
    }

    /** POST /api/update, the decoding and the locked read-modify-write. */
    method PostUpdate(body: Body, loadWriteOk: bool, saveWriteOk: bool) returns (response: Response)
      modifies this
      ensures Answered(response, file) == UpdateOutcome(old(file), body, loadWriteOk, saveWriteOk)
    {
      match body
      case Malformed =>
        response := BadRequest;
      case NotObject =>
        response := Crashed;
      case Object(person, change) =>
        var loaded := LoadScores(loadWriteOk);
        if loaded.None? {
          return BadRequest;
        }
        var scores := loaded.value;
        if person.Some? && person.value in scores && IsInteger(change) {
          scores := scores[person.value := scores[person.value] + Delta(change)];
          SaveScores(scores, saveWriteOk);
          response := Ok(scores);
        } else {
          response := BadRequest;
        }
    }
  }

  /**
   * A client run from a fresh start, proved from the contracts above: the
   * first GET answers the seed board, ali +1 and then ali -5 answer the
   * moved boards (negative scores allowed), bob is refused with 400, and a
   * GET after the refusal still answers the last accepted board.
   */
  method FreshStartScenario() returns (first: Response, plusOne: Response, minusFive: Response, unknown: Response, last: Response)
    ensures first == Ok(map["ali" := 0, "hamza" := 0, "yasir" := 0])
    ensures plusOne == Ok(map["ali" := 1, "hamza" := 0, "yasir" := 0])
    ensures minusFive == Ok(map["ali" := -4, "hamza" := 0, "yasir" := 0])
    ensures unknown == BadRequest
    ensures last == minusFive
  {
    var seed := map["ali" := 0, "hamza" := 0, "yasir" := 0];
    assert Defaults() == seed;
    var store := new Store(Missing);
    first := store.GetScores(true);
    assert store.file == Holds(seed);
    WithDefaultsKeepsCompleteBoard(seed);
    plusOne := store.PostUpdate(Object(Some("ali"), Int(1)), true, true);
    assert store.file == Holds(seed["ali" := 1]);
    WithDefaultsKeepsCompleteBoard(seed["ali" := 1]);
    minusFive := store.PostUpdate(Object(Some("ali"), Int(-5)), true, true);
    assert store.file == Holds(seed["ali" := -4]);
    WithDefaultsKeepsCompleteBoard(seed["ali" := -4]);
    unknown := store.PostUpdate(Object(Some("bob"), Int(1)), true, true);
    assert store.file == Holds(seed["ali" := -4]);
    last := store.GetScores(true);
  }
}
