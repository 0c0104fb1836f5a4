# Respect score store, modelled in Dafny

The repository keeps a handful of named counters ("ali", "hamza", "yasir") in a
JSON file, `scores.json`. Two HTTP front ends read and update it:

- `score.py`, a raw `http.server` handler (`RespectScoreHandler`). Every load
  merges in the three seed names. A missing file, or one that cannot be read
  or does not parse as JSON, is reset to the seed board. Write errors are
  swallowed. `POST /api/update` refuses an absent or unknown person, or a
  change that is not an integer, with 400.
  A file whose bytes are not valid UTF-8 is not reset. Its load raises
  `UnicodeDecodeError`, which the `except` of `load_scores` does not catch.
  A GET then fails after its 200 status line has gone out. A POST catches the
  error as a `ValueError` and answers 400. Either way the file is left as it was.
- `respect_score.py`, a Flask application. A load creates the file with the
  seed board only when the file is missing. Otherwise it returns the file
  exactly as stored. `POST /api/update` ignores an unknown person and answers
  the unchanged board with 200. Nothing is caught, so a corrupt file, a failed
  write or a change that cannot be added becomes a 500.

The model has four modules:

- `Scoreboard` (`scoreboard.dfy`) holds the shared vocabulary:
  - the board, a `map<string, int>`;
  - the backing file as the store sees it
    (`Missing | Corrupt | Undecodable | Holds(board)`);
  - the seed board;
  - the decoded request body;
  - the outcome of a request (`Ok(board) | BadRequest | Crashed`).
- `ScoreHandler` (`score_handler.dfy`) models `score.py`.
- `ScoreApp` (`score_app.dfy`) models `respect_score.py`.
- `Variants` (`variants.dfy`) states where the two stores agree and where
  their policies differ.

Each store module has three parts:

- Pure functions specify each operation as a step on the file: `LoadOutcome`,
  `UpdateOutcome` and the shared `Written`.
- A class `Store` holds the file content as a field. Its methods
  (`LoadScores`, `SaveScores`, `GetScores`, and `PostUpdate` or
  `UpdateScoreApi`) follow the Python code statement by statement, and each
  method's `ensures` ties the new state and its answer to the step function.
- Lemmas about the step functions state what holds across several requests.

Each request is modelled as one atomic step. For `score.py` this is what
happens: its `HTTPServer` serves one request at a time, so its lock is
redundant there. `respect_score.py` runs on Flask's development server, which
handles requests on several threads and takes no lock, so there the model
describes requests that do not overlap. Whether a write to the file goes through is
a boolean parameter of every operation that writes.

Some behaviours of the code are easy to miss, and the model follows the code
in each case:

- Neither store keeps the board in memory. Every request, including
  `GET /api/scores`, reads the file again.
- In `score.py`, loading a valid file never writes it. Seed names the file
  lacks reach the file only through the save of a later accepted update.
- Python's `bool` is a subclass of `int`. So `score.py` accepts
  `"change": true` and adds 1, and `respect_score.py` does the same.
- Neither store rejects an empty person name by its own check. An empty name
  is accepted exactly when the stored board has it as a key, as a file
  holding `{"": 5}` does.
- In `respect_score.py`, GET is idempotent only when the first GET answers.
  On a missing file whose creation fails, the first GET raises and leaves the
  file missing, and a later GET whose creation goes through answers the seed
  board.
- In `score.py`, saving what a load returned does not always leave the file
  as it was. It does so exactly when the file already holds a board with all
  three seed names. A board that lacks one gains it, and a missing or broken
  file becomes the seed board. In `respect_score.py`, saving what a load
  returned always leaves the file as the load left it.
- The two stores handle a failed write differently. `score.py` prints the
  error and still answers 200 with the new board. `respect_score.py` raises,
  so Flask answers 500.

## Model

| member | source | states |
|---|---|---|
| `Scoreboard.Defaults` | score.py:21 | the seed board has exactly the keys ali, hamza and yasir, all at 0 |
| `Scoreboard.Written` | score.py:39-43 | a write that goes through leaves exactly the given board in the file; a failed one leaves the file as it was |
| `Scoreboard.Delta` | score.py:97-99 | an int change adds itself; a bool change, which passes `isinstance(change, int)`, adds 1 for true and 0 for false |
| `Scoreboard.Bumped` | score.py:98-99 | `scores[person] += change` keeps the key set, moves that person by the change and leaves every other score as it was |
| `ScoreHandler.WithDefaults` | score.py:20-24 | the merged board has the stored keys plus the seed names; stored scores are kept; only names the file lacks are added, at 0 |
| `ScoreHandler.MergeDefaults` | score.py:21-24 | the loop over the seed names produces exactly the merged board |
| `ScoreHandler.LoadOutcome` | score.py:13-36 | a valid file returns the merged board and is not written; a missing, unreadable or unparsable file returns the seed board, and the load writes the file exactly when it was such a file and the write goes through, and then with the seed board; a file that is not valid UTF-8 raises and is not written |
| `ScoreHandler.ApplyChange` | score.py:97-99 | a change is accepted exactly when the person is a key of the loaded board and the change is an integer; then only that key moves, by the change |
| `ScoreHandler.UpdateOutcome` | score.py:82-120 | a body that is not JSON gets 400 and one that is not an object raises, both with the file untouched; on a file that is not valid UTF-8 every object body gets 400 and the file is untouched; a 200 board always has the seed names; any file it writes holds a board with the seed names |
| `ScoreHandler.GetIsIdempotent` | score.py:65-74 | two GETs with nothing in between answer the same board, whatever happens to the writes |
| `ScoreHandler.SaveOfLoadRoundTrips` | score.py:17-25 | when the load returns, saving its board and loading again gives back the same board |
| `ScoreHandler.UpdateAppliesKnownChange` | score.py:97-109 | a known person with an integer change gets 200 with the loaded board moved at that key, and that whole board is saved |
| `ScoreHandler.UpdateRejectsInvalidRequest` | score.py:97-114 | an absent or unknown person, or a non-integer change, gets 400 and no update save: the file is as the load left it |
| `ScoreHandler.FailedSaveIsSwallowed` | score.py:39-46 | an update whose save fails still answers 200 with the new board, while the file stays as the load left it |
| `ScoreHandler.AcceptedUpdateIsDurable` | score.py:99-100 | after an accepted update whose save went through, the file holds the answered board and the next load returns exactly it |
| `ScoreHandler.SaveOfLoadKeepsFileIffComplete` | score.py:17-36 | saving what a load returned leaves the file as it was exactly when the file already held a board with all three seed names |
| `ScoreHandler.UpdatesAccumulate` | score.py:94-100 | serialised updates to one person lose nothing: the next load returns the loaded board with that score moved by the sum of the changes and no other score moved |
| `ScoreHandler.Store.SaveScores` | score.py:38-46 | save_scores replaces the file with the whole board when the write goes through and swallows a failure |
| `ScoreHandler.Store.LoadScores` | score.py:13-36 | load_scores returns and leaves behind exactly what `LoadOutcome` says |
| `ScoreHandler.Store.GetScores` | score.py:65-74 | GET /api/scores answers 200 with what load_scores returns, and fails when the load raises |
| `ScoreHandler.Store.PostUpdate` | score.py:82-120 | the decode-and-locked-update block answers and leaves the file exactly as `UpdateOutcome` says |
| `ScoreHandler.FreshStartScenario` | score.py:94-114 | from a missing file: GET answers the seed board; ali +1 answers ali 1; ali -5 answers ali -4; bob gets 400; a later GET still answers ali -4 |
| `ScoreApp.LoadOutcome` | respect_score.py:11-16 | a valid file is returned exactly as stored, with nothing merged and nothing written; a missing file is created with the seed board, which is then returned; a file that cannot be read, decoded or parsed, or a missing one whose creation fails, raises |
| `Scoreboard.AsResponse` | respect_score.py:24-26 | GET answers 200 with the loaded board exactly when the load returned, and fails otherwise |
| `ScoreApp.ApplyChange` | respect_score.py:35-36 | an absent or unknown person leaves the board as it is, whatever the change; a known person moves by an integer change; any other change raises |
| `ScoreApp.UpdateOutcome` | respect_score.py:29-38 | a body that is not JSON gets 400 and one that is not an object raises, both with the file untouched; the only thing it ever writes is a board |
| `ScoreApp.GetIsIdempotent` | respect_score.py:24-26 | when a GET answers, a second GET with nothing in between answers the same board and leaves the same file |
| `ScoreApp.GetAfterFailedCreationDiffers` | respect_score.py:11-16 | on a missing file whose creation fails, GET raises and leaves the file missing, while a GET whose creation goes through answers the seed board |
| `ScoreApp.SaveOfLoadKeepsFile` | respect_score.py:15-21 | saving what a load returned leaves the file as the load left it, and a valid file exactly as it was |
| `ScoreApp.SaveThenLoadRoundTrips` | respect_score.py:19-21 | a load right after a save returns exactly the saved board, whatever the file held before |
| `ScoreApp.UpdateAppliesKnownChange` | respect_score.py:34-38 | a known person with an integer change: the moved board is saved whole and answered 200, or the request raises when the save fails |
| `ScoreApp.UpdateCrashesOnNonIntegerChange` | respect_score.py:35-36 | a known person with a change that is neither an int nor a bool makes the addition raise, and the file is as the load left it |
| `ScoreApp.UpdateIgnoresUnknownPerson` | respect_score.py:35-38 | an absent or unknown person gets 200 with the loaded board unchanged, whatever the change, and nothing is written |
| `ScoreApp.FailedLoadFailsEveryUpdate` | respect_score.py:11-16 | whenever load_scores raises (a file that cannot be read, decoded or parsed, or a missing file whose creation fails), every update raises and the file stays as it is |
| `ScoreApp.AnsweredBoardIsStored` | respect_score.py:34-38 | whatever an update answers with 200 is what the next GET answers |
| `ScoreApp.UpdatesAccumulate` | respect_score.py:34-37 | serialised updates to one known person lose nothing: the score moves by the sum of the changes and no other score moves |
| `ScoreApp.Store.SaveScores` | respect_score.py:19-21 | save_scores replaces the file with the whole board, and reports whether the write raised |
| `ScoreApp.Store.LoadScores` | respect_score.py:11-16 | load_scores returns and leaves behind exactly what `LoadOutcome` says |
| `ScoreApp.Store.GetScores` | respect_score.py:24-26 | get_scores answers the jsonified load, or 500 when the load raises |
| `ScoreApp.Store.UpdateScoreApi` | respect_score.py:29-38 | update_score_api answers and leaves the file exactly as `UpdateOutcome` says |
| `ScoreApp.FreshStartScenario` | respect_score.py:29-38 | from a missing file: GET answers the seed board; ali +1 answers ali 1; ali -5 answers ali -4; bob is answered with that board unchanged, and so is a later GET |
| `Variants.LoadsAgreeExactlyOnCompleteFiles` | score.py:20-24 | on a valid file, the two loads return the same board exactly when the file already has all three seed names |
| `Variants.LoadsAgreeOnMissingFile` | respect_score.py:12-14 | on a missing file whose creation goes through, both loads return the seed board and leave it in the file |
| `Variants.KnownPersonUpdatesAgree` | respect_score.py:35-37 | on a complete board, an integer change to a known person gets the same answer and leaves the same file in both stores |
| `Variants.UnknownPersonPoliciesDiffer` | score.py:97-114 | for an unknown person on a complete board, score.py answers 400 and respect_score.py answers 200 with the board unchanged; neither writes |
| `Variants.EmptyNameIsKnownWhenStored` | score.py:97-99 | an empty person name stored as a key of the file is updated like any other name, in both stores |
| `Variants.UndecodableFileHandling` | score.py:116-120 | on a file that is not valid UTF-8, an update gets 400 from score.py and an uncaught exception from respect_score.py; neither touches the file |

## Left out

- The `threading.Lock` of score.py (lines 11, 72, 94) is left out. Its `HTTPServer` (line 151) handles one request at a time, so requests are modelled as atomic steps run one after another.
- respect_score.py does not serialise requests: Flask's development server (line 370) runs them on several threads with no lock. Two overlapping updates can lose one, and a GET that reads while a save has just truncated the file raises. The ScoreApp lemmas about several requests (`GetIsIdempotent`, `AnsweredBoardIsStored`, `UpdatesAccumulate`, `FreshStartScenario`) hold only for requests that do not overlap.
- HTTP plumbing is left out: status lines, headers, body writing, the CORS preflight, the 404 routes, Flask routing and `jsonify`. Only the outcome is modelled: 200 with a board, 400, or an uncaught exception.
- The HTML, CSS and JavaScript page of respect_score.py is left out, because it is presentation. So is `index.html` in score.py.
- `get_local_ip`, `run_server`, the command-line port parsing and the console logging of score.py are left out, because they are socket, console and process plumbing. The initial `load_scores` call in `run_server` is modelled by `LoadScores`.
- app.py is not part of this model. It is a thin SQLAlchemy wrapper over a `models.py` that is not available.
- JSON text is left out: indentation, `ensure_ascii`, character encoding beyond "valid UTF-8 or not", and key order in the answer. The file is modelled as missing, unreadable or unparsable, not valid UTF-8, or holding a board. A file that parses but is not an object of integer scores is not modelled, for example a JSON list or a float score.
- respect_score.py opens the file without naming an encoding, so it decodes with the locale's encoding. The model assumes a UTF-8 locale, in which a file that is not valid UTF-8 raises on load.
- A write is modelled as all or nothing. A write that fails after `open(..., 'w')` has truncated the file would leave it empty or partial. The model leaves the file as it was.
- A "person" value that is not a string is modelled as absent. That is right for numbers, booleans and null, because none of them is ever a board key. An unhashable value (a list or an object) makes `person in scores` raise `TypeError` in both stores, and the model does not capture that.
- A body that is not JSON is modelled as answered 400 by Flask (`request.json` raising `BadRequest`). Older Flask versions, and a request without a JSON content type, behave differently (415, or `None` followed by a 500).
- `ScoreApp.UpdateOutcome`: requires that the request does not add a float change to a known person (`AddsNoFloat`). Python would store a float score and answer 200, but the board here holds integers only. A float change for an unknown person is still covered.
- `ScoreApp.ApplyChange`: requires that a known person's change is not a float, for the same reason.
- `ScoreApp.Store.UpdateScoreApi`: carries the same float requirement as `ScoreApp.UpdateOutcome`.
