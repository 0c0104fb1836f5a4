/**
 * Shared vocabulary of the two score-board stores: the board itself, the
 * backing file as the store sees it, the seed board, the decoded request
 * body of POST /api/update and the outcome of a request.
 */
module Scoreboard {

  /** A score board: person name to integer score (negative scores allowed). */
  type Board = map<string, int>

  datatype Option<T> = None | Some(value: T)

  /** The names both stores seed a fresh board with, in the order their dict literals list them. */
  const DefaultNames: seq<string> := ["ali", "hamza", "yasir"]

  /** The seed board `{'ali': 0, 'hamza': 0, 'yasir': 0}`. */
  function Defaults(): (seed: Board)
    ensures seed.Keys == {"ali", "hamza", "yasir"}
    ensures forall name :: name in seed ==> seed[name] == 0
  {
    map name | name in DefaultNames :: 0
  }

  /**
   * The backing scores.json. `Corrupt` is a file that exists but cannot be
   * opened or read, or whose text does not parse as JSON; `Undecodable` is a
   * file whose bytes are not valid UTF-8, so decoding its text raises
   * `UnicodeDecodeError` before any JSON is parsed; `Holds` is a file whose
   * JSON object decodes to a board.
   */
  datatype FileState = Missing | Corrupt | Undecodable | Holds(board: Board)

  /**
   * The effect of opening the file for writing and dumping `scores` into it:
   * when the write goes through the file holds exactly `scores`, otherwise
   * it is left as it was.
   */
  function Written(file: FileState, scores: Board, writeOk: bool): (after: FileState)
    ensures writeOk ==> after.Holds? && after.board == scores
    ensures !writeOk ==> after == file
  {
    if writeOk then Holds(scores) else file
  }

  /**
   * The JSON value found under "change". Python's bool is a subclass of int,
   * so `Bool` passes an `isinstance(change, int)` test and adds 1 or 0;
   * `Float` is a JSON number with a fraction or exponent; `Other` is
   * anything else (absent, null, a string, a list, an object).
   */
  datatype Change = Int(n: int) | Bool(b: bool) | Float | Other

  /** `isinstance(change, int)` in Python. */
  predicate IsInteger(change: Change)
  {
    change.Int? || change.Bool?
  }

  /** The amount `scores[person] += change` adds when `change` is an int or a bool. */
  function Delta(change: Change): (d: int)
    requires IsInteger(change)
    ensures change.Int? ==> d == change.n
    ensures change.Bool? ==> d == (if change.b then 1 else 0)
  {
    match change
    case Int(n) => n
    case Bool(b) => if b then 1 else 0
  }

  /**
   * The body of POST /api/update after JSON decoding. `Malformed` is a body
   * that is not valid JSON; `NotObject` is valid JSON that is not an object
   * (so `data.get` raises); `Object` carries the "person" entry (None when it
   * is absent or not a string, neither of which is ever a board key) and the
   * "change" entry.
   */
  datatype Body = Malformed | NotObject | Object(person: Option<string>, change: Change)

  /**
   * What a request answers: 200 with a board, 400, or an exception the
   * handler does not catch (Flask turns it into a 500; the raw HTTP server
   * drops the connection, after whatever status line it had already sent).
   */
  datatype Response = Ok(scores: Board) | BadRequest | Crashed

  /** The 200 with a loaded board, or the uncaught exception of a load that raised. */
  function AsResponse(scores: Option<Board>): (response: Response)
    ensures response.Ok? <==> scores.Some?
    ensures scores.Some? ==> response.scores == scores.value
    ensures response.Ok? || response.Crashed?
  {
    match scores
    case Some(board) => Ok(board)
    case None => Crashed
  }

  /** A response together with the file it leaves behind. */
  datatype Answered = Answered(response: Response, file: FileState)

  /** The board after `scores[person] += delta`, for a person already on the board. */
  function Bumped(scores: Board, person: string, delta: int): (updated: Board)
    requires person in scores
    ensures updated.Keys == scores.Keys
    ensures updated[person] == scores[person] + delta
    ensures forall name :: name in scores && name != person ==> updated[name] == scores[name]
  {
    scores[person := scores[person] + delta]
  }

  /** Two bumps of the same person add up. */
  lemma BumpedTwice(scores: Board, person: string, first: int, second: int)
    requires person in scores
    ensures Bumped(Bumped(scores, person, first), person, second) == Bumped(scores, person, first + second)
  {
    var twice := Bumped(Bumped(scores, person, first), person, second);
    var once := Bumped(scores, person, first + second);
    assert twice.Keys == once.Keys;
    forall name | name in once
      ensures twice[name] == once[name]
    {
    }
  }

  /** The sum of a sequence of score changes. */
  function Sum(deltas: seq<int>): int
  {
    if deltas == [] then 0 else deltas[0] + Sum(deltas[1..])
  }
}
