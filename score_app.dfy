/**
 * The score store behind the Flask application (respect_score.py). Loading
 * creates the file with the seed board only when it is missing and otherwise
 * returns what the file holds, merging nothing; POST /api/update silently
 * ignores a person the board does not have and answers the board unchanged.
 * Nothing here catches an exception: a corrupt file, a failed write or a
 * change that cannot be added raises, and Flask answers 500.
 *
 * Each request is modelled as one atomic step, and whether a write to the
 * file goes through is a parameter of every operation that writes. The
 * application itself does not serialise requests, so the lemmas below about
 * several requests describe requests that do not overlap.
 */
module ScoreApp {
  import opened Scoreboard

  /** What load_scores returns (None when it raises), and the file it leaves behind. */
  datatype Read = Read(scores: Option<Board>, file: FileState)

  /**
   * load_scores: a missing file is first created with the seed board (a
   * failed write raises); then the file is read back, and a file that does
   * not read, decode or parse raises. A file that parses is returned
   * exactly as stored.
   */
  function LoadOutcome(file: FileState, writeOk: bool): (r: Read)
    ensures file.Holds? ==> r == Read(Some(file.board), file)
    ensures file.Missing? && writeOk ==> r == Read(Some(Defaults()), Holds(Defaults()))
    ensures file.Corrupt? || file.Undecodable? || (file.Missing? && !writeOk) ==> r == Read(None, file)
  {
    match file
    case Missing =>
      if writeOk then Read(Some(Defaults()), Written(file, Defaults(), writeOk)) else Read(None, file)
    case Holds(stored) => Read(Some(stored), file)
    case _ => Read(None, file)
  }

  /**
   * The request does not add a float to a score: adding one would make the
   * score a float, and the board here holds integers only. A float change
   * for a person the board lacks is never added and is allowed.
   */
  predicate AddsNoFloat(file: FileState, body: Body, loadWriteOk: bool)
  {
    match body
    case Object(person, change) =>
      var read := LoadOutcome(file, loadWriteOk);
      !(read.scores.Some? && person.Some? && person.value in read.scores.value && change.Float?)
    case _ => true
  }

  /**
   * The `if person in scores` block of update_score_api: an absent or
   * unknown person leaves the board as it is, whatever the change; a known
   * person moves by the change when it is an int or a bool, and any other
   * change makes the addition raise (None).
   */
  function ApplyChange(scores: Board, person: Option<string>, change: Change): (r: Option<Board>)
    requires person.Some? && person.value in scores ==> !change.Float?
    ensures !(person.Some? && person.value in scores) ==> r == Some(scores)
    ensures r.None? <==> person.Some? && person.value in scores && !IsInteger(change)
    ensures r.Some? ==> r.value.Keys == scores.Keys
    ensures r.Some? && person.Some? && person.value in scores ==> r.value[person.value] == scores[person.value] + Delta(change)
    ensures r.Some? ==> forall name :: name in scores && (person.None? || name != person.value) ==> r.value[name] == scores[name]
  {
    if person.Some? && person.value in scores then
      if IsInteger(change) then Some(Bumped(scores, person.value, Delta(change))) else None
    else
      Some(scores)
  }

  /**
   * POST /api/update as one atomic step. Flask refuses a body that is not
   * JSON with 400 and `data.get` raises on JSON that is not an object, both
   * before the file is touched. Otherwise the board is loaded (which may
   * create the file or raise); a change to a known person is applied and the
   * whole board saved (a failed save raises); the board is answered.
   */
  function UpdateOutcome(file: FileState, body: Body, loadWriteOk: bool, saveWriteOk: bool): (r: Answered)
    requires AddsNoFloat(file, body, loadWriteOk)
    ensures body.Malformed? ==> r == Answered(BadRequest, file)
    ensures body.NotObject? ==> r == Answered(Crashed, file)
    ensures r.file != file ==> r.file.Holds?
  {
    match body
    case Malformed => Answered(BadRequest, file)
    case NotObject => Answered(Crashed, file)
    case Object(person, change) =>
      var read := LoadOutcome(file, loadWriteOk);
      match read.scores
      case None => Answered(Crashed, read.file)
      case Some(scores) =>
        if person.Some? && person.value in scores then
          match ApplyChange(scores, person, change)
          case None => Answered(Crashed, read.file)
          case Some(updated) =>
            if saveWriteOk then Answered(Ok(updated), Written(read.file, updated, saveWriteOk))
            else Answered(Crashed, read.file)
        else
          Answered(Ok(scores), read.file)
  }

  /**
   * Saving what a load returned leaves the file exactly as the load left it,
   * and a file that parses exactly as it was before the load.
   */
  lemma SaveOfLoadKeepsFile(file: FileState, writeOk: bool)
    ensures var read := LoadOutcome(file, writeOk);
            read.scores.Some? ==> Written(read.file, read.scores.value, true) == read.file
    ensures file.Holds? ==> Written(file, LoadOutcome(file, writeOk).scores.value, true) == file
  {
  }

  /**
   * Two GETs with nothing in between answer the same board, provided the
   * first one answers at all.
   */
  lemma GetIsIdempotent(file: FileState, firstWriteOk: bool, secondWriteOk: bool)
    requires LoadOutcome(file, firstWriteOk).scores.Some?
    ensures var first := LoadOutcome(file, firstWriteOk);
            LoadOutcome(first.file, secondWriteOk) == first
  {
  }

  /**
   * Without that proviso a second GET can differ: on a missing file whose
   * creation fails the first GET raises and leaves the file missing, and a
   * second GET whose creation goes through answers the seed board.
   */
  lemma GetAfterFailedCreationDiffers()
    ensures LoadOutcome(Missing, false) == Read(None, Missing)
    ensures AsResponse(LoadOutcome(Missing, false).scores) == Crashed
    ensures AsResponse(LoadOutcome(Missing, true).scores) == Ok(Defaults())
  {
  }

  /** Saving a board and loading right after gives back exactly that board, whatever was there before. */
  lemma SaveThenLoadRoundTrips(file: FileState, scores: Board, reloadWriteOk: bool)
    ensures LoadOutcome(Written(file, scores, true), reloadWriteOk) == Read(Some(scores), Holds(scores))
  {
  }

  /**
   * A known person with an integer change: the board moved by the change at
   * that key only is saved whole and answered 200 when the save goes
   * through, and the request raises otherwise.
   */
  lemma UpdateAppliesKnownChange(file: FileState, person: string, change: Change, loadWriteOk: bool, saveWriteOk: bool)
    requires IsInteger(change)
    requires var read := LoadOutcome(file, loadWriteOk); read.scores.Some? && person in read.scores.value
    ensures var read := LoadOutcome(file, loadWriteOk);
            var updated := Bumped(read.scores.value, person, Delta(change));
            UpdateOutcome(file, Object(Some(person), change), loadWriteOk, saveWriteOk)
              == if saveWriteOk then Answered(Ok(updated), Holds(updated)) else Answered(Crashed, read.file)
  {
  }

  /**
   * An absent or unknown person: the loaded board is answered 200 unchanged
   * and the file is left as the load left it, whatever the change.
   */
  lemma UpdateIgnoresUnknownPerson(file: FileState, person: Option<string>, change: Change, loadWriteOk: bool, saveWriteOk: bool)
    requires var read := LoadOutcome(file, loadWriteOk); read.scores.Some? && !(person.Some? && person.value in read.scores.value)
    ensures var read := LoadOutcome(file, loadWriteOk);
            UpdateOutcome(file, Object(person, change), loadWriteOk, saveWriteOk) == Answered(Ok(read.scores.value), read.file)
  {
  }

  /**
   * A known person with a change that is neither an int nor a bool (absent,
   * null, a string, a list, an object): the addition raises, and the file is
   * left as the load left it.
   */
  lemma UpdateCrashesOnNonIntegerChange(file: FileState, person: string, change: Change, loadWriteOk: bool, saveWriteOk: bool)
    requires change.Other?
    requires var read := LoadOutcome(file, loadWriteOk); read.scores.Some? && person in read.scores.value
    ensures UpdateOutcome(file, Object(Some(person), change), loadWriteOk, saveWriteOk)
              == Answered(Crashed, LoadOutcome(file, loadWriteOk).file)
  {
  }

  /**
   * When load_scores raises (a file that cannot be read, decoded or parsed,
   * or a missing file whose creation fails), every update raises and the
   * file stays as it is.
   */
  lemma FailedLoadFailsEveryUpdate(file: FileState, body: Body, loadWriteOk: bool, saveWriteOk: bool)
    requires LoadOutcome(file, loadWriteOk).scores.None?
    requires body.Object?
    ensures UpdateOutcome(file, body, loadWriteOk, saveWriteOk) == Answered(Crashed, file)
  {
  }

  /**
   * An update answered 200 is what GET /api/scores answers next: the
   * board it answered is the board in the file.
   */
  lemma AnsweredBoardIsStored(file: FileState, body: Body, loadWriteOk: bool, saveWriteOk: bool, reloadWriteOk: bool)
    requires AddsNoFloat(file, body, loadWriteOk)
    requires UpdateOutcome(file, body, loadWriteOk, saveWriteOk).response.Ok?
    ensures var answered := UpdateOutcome(file, body, loadWriteOk, saveWriteOk);
            AsResponse(LoadOutcome(answered.file, reloadWriteOk).scores) == answered.response
  {
  }

  /** The file after one update per change to the same person, in order, every write going through. */
  function UpdateAll(file: FileState, person: string, deltas: seq<int>): FileState
    decreases |deltas|
  {
    if deltas == [] then file
    else UpdateAll(UpdateOutcome(file, Object(Some(person), Int(deltas[0])), true, true).file, person, deltas[1..])
  }

  /**
   * Updates to one person that do not overlap lose nothing: starting from a file
   * that has the person, the file ends up with that score moved by the sum
   * of the changes and every other score as it was.
   */
  lemma {:induction false} UpdatesAccumulate(stored: Board, person: string, deltas: seq<int>)
    requires person in stored
    ensures UpdateAll(Holds(stored), person, deltas) == Holds(Bumped(stored, person, Sum(deltas)))
  {
    if deltas == [] {
      assert Bumped(stored, person, 0) == stored;
    } else {
      var once := Bumped(stored, person, deltas[0]);
      UpdateAppliesKnownChange(Holds(stored), person, Int(deltas[0]), true, true);
      assert UpdateOutcome(Holds(stored), Object(Some(person), Int(deltas[0])), true, true).file == Holds(once);
      UpdatesAccumulate(once, person, deltas[1..]);
      BumpedTwice(stored, person, deltas[0], Sum(deltas[1..]));
    }
  }

  /** The module-level state the Flask views share: the content of the scores file. */
  class Store {
    var file: FileState

    constructor (file: FileState)
      ensures this.file == file
    {
      this.file := file;
    }

    /** save_scores: replaces the file with the whole board; `ok` is false when the write raised. */
    method SaveScores(scores: Board, writeOk: bool) returns (ok: bool)
      modifies this
      ensures ok == writeOk
      ensures file == Written(old(file), scores, writeOk)
    {
      ok := writeOk;
      if ok {
        file := Holds(scores);
      }
    }

    /** load_scores; None when it raises. */
    method LoadScores(writeOk: bool) returns (scores: Option<Board>)
      modifies this
      ensures Read(scores, file) == LoadOutcome(old(file), writeOk)
    {
      if file.Missing? {
        var created := SaveScores(Defaults(), writeOk);
        if !created {
          return None;
        }
      }
      match file
      case Holds(stored) =>
        scores := Some(stored);
      case _ =>
        scores := None;
    }

    /** GET /api/scores: jsonify of what load_scores returns. */
    method GetScores(writeOk: bool) returns (response: Response)
      modifies this
      ensures Answered(response, file) == var read := LoadOutcome(old(file), writeOk); Answered(AsResponse(read.scores), read.file)
    {
      var scores := LoadScores(writeOk);
      response := AsResponse(scores);
    }

    /** update_score_api. */
    method UpdateScoreApi(body: Body, loadWriteOk: bool, saveWriteOk: bool) returns (response: Response)
      requires AddsNoFloat(file, body, loadWriteOk)
      modifies this
      ensures Answered(response, file) == UpdateOutcome(old(file), body, loadWriteOk, saveWriteOk)
    {
      match body
      case Malformed =>
        response := BadRequest;
      case NotObject =>
        response := Crashed;
      case Object(person, change) =>
        var loaded := LoadScores(loadWriteOk);
        if loaded.None? {
          return Crashed;
        }
        var scores := loaded.value;
        if person.Some? && person.value in scores {
          if !IsInteger(change) {
            return Crashed;
          }
          scores := scores[person.value := scores[person.value] + Delta(change)];
          var saved := SaveScores(scores, saveWriteOk);
          if !saved {
            return Crashed;
          }
        }
        response := Ok(scores);
    }
  }

  /**
   * A client run from a fresh start, proved from the contracts above: the
   * first GET creates the file and answers the seed board, ali +1 and then
   * ali -5 answer the moved boards, bob is ignored and answered with the
   * board unchanged, and a GET after that answers the same board.
   */
  method FreshStartScenario() returns (first: Response, plusOne: Response, minusFive: Response, unknown: Response, last: Response)
    ensures first == Ok(map["ali" := 0, "hamza" := 0, "yasir" := 0])
    ensures plusOne == Ok(map["ali" := 1, "hamza" := 0, "yasir" := 0])
    ensures minusFive == Ok(map["ali" := -4, "hamza" := 0, "yasir" := 0])
    ensures unknown == minusFive
    ensures last == minusFive
  {
    var seed := map["ali" := 0, "hamza" := 0, "yasir" := 0];
    assert Defaults() == seed;
    var store := new Store(Missing);
    first := store.GetScores(true);
    plusOne := store.UpdateScoreApi(Object(Some("ali"), Int(1)), true, true);
    assert store.file == Holds(seed["ali" := 1]);
    minusFive := store.UpdateScoreApi(Object(Some("ali"), Int(-5)), true, true);
    assert store.file == Holds(seed["ali" := -4]);
    unknown := store.UpdateScoreApi(Object(Some("bob"), Int(1)), true, true);
    last := store.GetScores(true);
  }
}
