/** The round and score bookkeeping of the windowed game `SPGuessApp`. Widgets,
    timers and the snippet thread are abstracted away: a timer that fires becomes
    a method call, the song `random.choice` picks and the entry's text become
    parameters, and the on-screen effects the rest of the game depends on
    (end screen shown, inputs enabled, next round scheduled, window closed,
    score file written) become fields.

    Every event handler of the class is specified by a transition function on
    `AppState`, a snapshot of all fields; the properties of the game are proved
    about those functions. */
module UiApp {
  import opened Text
  import opened Wrappers
  import opened GuessCli

  datatype Song = Song(title: seq<char>, artist: seq<char>)

  /** What `_load_high_score` finds: no file, a file it cannot read, or a stored best score. */
  datatype ScoreFile = Missing | Unreadable | Stored(best: int)

  /** The game's configuration. */
  datatype Settings = Settings(attemptsPerRound: int, livesTotal: int, perRoundSeconds: int,
                               interRoundDelayMs: int, randomizeOffset: bool, timeLimitEnabled: bool)

  /** The counters of one game. */
  datatype Tally = Tally(livesRemaining: int, scorePoints: int, correctCount: int, totalRounds: int)

  /** The round in progress: `round_active`, `attempts_remaining`, `current_song`. */
  datatype Round = Round(active: bool, attemptsRemaining: int, song: Option<Song>)

  /** What the window shows. */
  datatype Window = Window(gameOver: bool, entryEnabled: bool, buttonsEnabled: bool,
                           nextRoundScheduled: bool, closed: bool)

  /** All fields of `SPGuessApp` that the game logic reads or writes. */
  datatype AppState = AppState(settings: Settings, tally: Tally, round: Round,
                               bestScore: int, savedBest: Option<int>,
                               suggestions: seq<seq<char>>, suggestionIndex: nat,
                               window: Window)

  /** The commands typed into the entry that close the window or forfeit the round. */
  const QuitCommands: set<seq<char>> := {"/quit", "/exit"}
  const SkipCommands: set<seq<char>> := {"/skip", "/s", "/pass", "/next"}

  /** `max(5, min(600, secs))`. */
  function ClampSeconds(secs: int): (r: int)
    ensures 5 <= r <= 600
    ensures 5 <= secs <= 600 ==> r == secs
    ensures secs < 5 ==> r == 5
    ensures secs > 600 ==> r == 600
  {
    if secs < 5 then 5 else if secs > 600 then 600 else secs
  }

  /** `max(lo, n)`. */
  function AtLeast(lo: int, n: int): (r: int)
    ensures r >= lo && r >= n
    ensures r == lo || r == n
  {
    if n < lo then lo else n
  }

  /** The suggestion Tab inserts: the list is cycled through, wrapping around. */
  function TabPick(suggestions: seq<seq<char>>, index: nat): (s: seq<char>)
    requires suggestions != []
    ensures s in suggestions
    ensures index < |suggestions| ==> s == suggestions[index]
  {
    suggestions[index % |suggestions|]
  }

  /** The evaluator behind `evaluate_guess`, reduced to its verdict: a guess with
      the title's normal form is accepted, and an empty one never is. */
  function EvaluateGuess(guess: seq<char>, title: seq<char>): (ok: bool)
    ensures NormalizeTitle(guess) == NormalizeTitle(Canonicalize(title)) != [] ==> ok
    ensures NormalizeTitle(guess) == [] ==> !ok
  {
    if NormalizeTitle(guess) == NormalizeTitle(Canonicalize(title)) != [] then
      SameNormalFormIsCorrect(guess, title);
      IsCorrectGuess(guess, title)
    else
      IsCorrectGuess(guess, title)
  }

  /** What holds between events: every point came from a correct guess worth
      1 or 3, every win is a counted round, no more lives remain than a game
      starts with, and an active round has a song, at least one life and no
      more attempts than a round allows (at least one when a round allows any). */
  predicate Valid(s: AppState)
    ensures Valid(s) ==> 0 <= s.tally.scorePoints <= 3 * s.tally.totalRounds
  {
    0 <= s.tally.correctCount <= s.tally.totalRounds &&
    s.tally.correctCount <= s.tally.scorePoints <= 3 * s.tally.correctCount &&
    s.tally.livesRemaining <= s.settings.livesTotal &&
    (s.round.active ==>
      s.round.song.Some? && s.tally.livesRemaining > 0 &&
      s.round.attemptsRemaining <= s.settings.attemptsPerRound &&
      (s.settings.attemptsPerRound >= 1 ==> s.round.attemptsRemaining >= 1))
  }

  /** `__init__`: configuration from the launcher, a fresh game, no round yet. */
  function Initial(attempts: int, lives: int, randomize: bool, seconds: int): (r: AppState)
    ensures Valid(r)
    ensures !r.round.active && !r.window.gameOver && r.tally == Tally(lives, 0, 0, 0) && r.bestScore == 0
    ensures r.settings.timeLimitEnabled && r.settings.interRoundDelayMs == 1500
  {
    AppState(Settings(attempts, lives, seconds, 1500, randomize, true),
             Tally(lives, 0, 0, 0), Round(false, attempts, None),
             0, None, [], 0, Window(false, true, true, false, false))
  }

  /** `_load_high_score`: a stored score replaces the best, an unreadable file resets it to 0. */
  function LoadHighScore(s: AppState, file: ScoreFile): (r: AppState)
    ensures r.bestScore == (match file
                            case Missing => s.bestScore
                            case Unreadable => 0
                            case Stored(b) => b)
    ensures r.(bestScore := s.bestScore) == s
  {
    match file
    case Missing => s
    case Unreadable => s.(bestScore := 0)
    case Stored(b) => s.(bestScore := b)
  }

  /** `_end_game`: the round stops, the inputs are disabled, the best score
      becomes the larger of the old best and this game's score (and is saved
      when beaten), and the end screen opens. */
  function EndGame(s: AppState): (r: AppState)
    ensures !r.round.active && r.window.gameOver && !r.window.entryEnabled && !r.window.buttonsEnabled
    ensures r.bestScore == AtLeast(s.bestScore, s.tally.scorePoints)
    ensures r.savedBest == (if s.tally.scorePoints > s.bestScore then Some(s.tally.scorePoints) else s.savedBest)
    ensures r.tally == s.tally && r.settings == s.settings
    ensures Valid(s) ==> Valid(r)
  {
    var ended := s.(round := s.round.(active := false),
                    window := s.window.(entryEnabled := false, buttonsEnabled := false, gameOver := true));
    if s.tally.scorePoints > s.bestScore then ended.(bestScore := s.tally.scorePoints, savedBest := Some(s.tally.scorePoints))
    else ended
  }

  /** `_start_new_round`, with `song` the pick of `random.choice`: with no
      lives left the game ends; otherwise the round starts with a full set of
      attempts, an enabled and empty entry, and no suggestions. */
  function StartNewRound(s: AppState, song: Song): (r: AppState)
    ensures s.tally.livesRemaining <= 0 ==> (!r.round.active && r.window.gameOver &&
                                             r.bestScore == AtLeast(s.bestScore, s.tally.scorePoints))
    ensures s.tally.livesRemaining > 0 ==> (r.round == Round(true, s.settings.attemptsPerRound, Some(song)) &&
                                            r.window.entryEnabled && r.suggestions == [] && r.suggestionIndex == 0 &&
                                            r.window.gameOver == s.window.gameOver && r.bestScore == s.bestScore)
    ensures !r.window.nextRoundScheduled
    ensures r.tally == s.tally && r.settings == s.settings
    ensures Valid(s) ==> Valid(r)
  {
    var s' := s.(window := s.window.(nextRoundScheduled := false));
    if s.tally.livesRemaining <= 0 then EndGame(s')
    else s'.(round := Round(true, s.settings.attemptsPerRound, Some(song)),
             window := s'.window.(entryEnabled := true), suggestions := [], suggestionIndex := 0)
  }

  /** `_finalize_round`: nothing when no round is active; otherwise the round
      ends and is counted, a failure costs exactly one life, and the game ends
      when no life is left, else the next round is scheduled. */
  function FinalizeRound(s: AppState, success: bool): (r: AppState)
    ensures !s.round.active ==> r == s
    ensures s.round.active ==> (!r.round.active &&
                                r.tally == s.tally.(totalRounds := s.tally.totalRounds + 1,
                                                    livesRemaining := s.tally.livesRemaining - (if success then 0 else 1)) &&
                                (r.tally.livesRemaining <= 0 ==> (r.window.gameOver &&
                                                                  r.bestScore == AtLeast(s.bestScore, s.tally.scorePoints))) &&
                                (r.tally.livesRemaining > 0 ==> (r.window.nextRoundScheduled && r.window.gameOver == s.window.gameOver &&
                                                                 r.bestScore == s.bestScore)))
    ensures r.settings == s.settings
    ensures Valid(s) ==> Valid(r)
  {
    if !s.round.active then s
    else
      var counted := s.(round := s.round.(active := false),
                        tally := s.tally.(totalRounds := s.tally.totalRounds + 1,
                                          livesRemaining := if success then s.tally.livesRemaining else s.tally.livesRemaining - 1));
      if counted.tally.livesRemaining <= 0 then EndGame(counted)
      else counted.(window := counted.window.(nextRoundScheduled := true))
  }

  /** How `_on_guess` judges the entry's text against the current song. */
  datatype Verdict = Close | Forfeit | Correct(points: int) | Wrong

  /** `/quit` and `/exit` close the window, a skip command forfeits the round,
      otherwise the stripped text is evaluated against the title and a correct
      guess is worth 3 with the artist and 1 without. Commands ignore case. */
  function Judge(entry: seq<char>, song: Song): (v: Verdict)
    ensures v == Close <==> Lower(Strip(entry)) in QuitCommands
    ensures v == Forfeit <==> Lower(Strip(entry)) !in QuitCommands && Lower(Strip(entry)) in SkipCommands
    ensures v.Correct? <==> (Lower(Strip(entry)) !in QuitCommands && Lower(Strip(entry)) !in SkipCommands &&
                             EvaluateGuess(Strip(entry), song.title))
    ensures v.Correct? ==> v.points == GuessPoints(Strip(entry), song.artist)
  {
    var guess := Strip(entry);
    var command := Lower(guess);
    if command in QuitCommands then Close
    else if command in SkipCommands then Forfeit
    else if EvaluateGuess(guess, song.title) then Correct(GuessPoints(guess, song.artist))
    else Wrong
  }

  /** What `_on_guess` does with an active round once the entry is judged:
      the window closes, the round is forfeited, a correct guess adds its
      points and a win and ends the round as a success, and a wrong one costs
      an attempt and, at zero attempts, the round. */
  function OnVerdict(s: AppState, v: Verdict): (r: AppState)
    requires s.round.active
    ensures v == Close ==> r == s.(window := s.window.(closed := true))
    ensures v == Forfeit ==> r == FinalizeRound(s, false)
    ensures v.Correct? ==> (!r.round.active &&
                            r.tally == s.tally.(scorePoints := s.tally.scorePoints + v.points,
                                                correctCount := s.tally.correctCount + 1,
                                                totalRounds := s.tally.totalRounds + 1))
    ensures v == Wrong ==> (r.round.attemptsRemaining == s.round.attemptsRemaining - 1 &&
                            (s.round.attemptsRemaining > 1 ==> (r.round.active && r.tally == s.tally &&
                                                                r.round.song == s.round.song)) &&
                            (s.round.attemptsRemaining <= 1 ==> (!r.round.active &&
                                                                 r.tally == s.tally.(totalRounds := s.tally.totalRounds + 1,
                                                                                     livesRemaining := s.tally.livesRemaining - 1))))
    ensures r.settings == s.settings
    ensures Valid(s) && (v.Correct? ==> v.points == 1 || v.points == 3) ==> Valid(r)
  {
    match v
    case Close => s.(window := s.window.(closed := true))
    case Forfeit => FinalizeRound(s, false)
    case Correct(p) =>
      FinalizeRound(s.(tally := s.tally.(scorePoints := s.tally.scorePoints + p,
                                         correctCount := s.tally.correctCount + 1)), true)
    case Wrong =>
      var missed := s.(round := s.round.(attemptsRemaining := s.round.attemptsRemaining - 1));
      if missed.round.attemptsRemaining > 0 then missed else FinalizeRound(missed, false)
  }

  /** `_on_guess` with the entry holding `entry`: ignored without an active
      round and a song, otherwise the entry is judged against the song. */
  function OnGuess(s: AppState, entry: seq<char>): (r: AppState)
    ensures !s.round.active || s.round.song.None? ==> r == s
    ensures s.round.active && s.round.song.Some? ==> r == OnVerdict(s, Judge(entry, s.round.song.value))
    ensures Valid(s) ==> Valid(r)
  {
    if !s.round.active || s.round.song.None? then s
    else OnVerdict(s, Judge(entry, s.round.song.value))
  }

  /** `_on_replay`: replaying costs an attempt, but only while at least two are left. */
  function OnReplay(s: AppState): (r: AppState)
    ensures r.round.attemptsRemaining ==
            (if s.round.active && s.round.attemptsRemaining > 1 then s.round.attemptsRemaining - 1
             else s.round.attemptsRemaining)
    ensures s.round.active ==> r.round.attemptsRemaining >= 1 || r.round.attemptsRemaining == s.round.attemptsRemaining
    ensures r.(round := s.round) == s && r.round.active == s.round.active && r.round.song == s.round.song
    ensures Valid(s) ==> Valid(r)
  {
    if s.round.active && s.round.attemptsRemaining > 1 then
      s.(round := s.round.(attemptsRemaining := s.round.attemptsRemaining - 1))
    else s
  }

  /** `_on_skip`: forfeits an active round as a failure. */
  function OnSkip(s: AppState): (r: AppState)
    ensures s.round.active ==> (!r.round.active &&
                                r.tally == s.tally.(totalRounds := s.tally.totalRounds + 1,
                                                    livesRemaining := s.tally.livesRemaining - 1))
    ensures !s.round.active ==> r == s
    ensures Valid(s) ==> Valid(r)
  {
    if s.round.active then FinalizeRound(s, false) else s
  }

  /** `_tick_timer` when the clock says the round's time is over: with the
      time limit on, an active round fails as if skipped; otherwise nothing happens. */
  function TimeUp(s: AppState): (r: AppState)
    ensures s.round.active && s.settings.timeLimitEnabled ==> r == OnSkip(s)
    ensures !(s.round.active && s.settings.timeLimitEnabled) ==> r == s
    ensures Valid(s) ==> Valid(r)
  {
    if !s.round.active then s
    else if s.settings.timeLimitEnabled then FinalizeRound(s, false)
    else s
  }

  /** The end screen's "Play Again": lives, wins, rounds and points start over
      and a new round begins with `song`. The buttons disabled by `_end_game`
      stay disabled; only the entry is enabled again. */
  function PlayAgain(s: AppState, song: Song): (r: AppState)
    ensures r.tally == Tally(s.settings.livesTotal, 0, 0, 0)
    ensures s.settings.livesTotal > 0 ==> (r.round == Round(true, s.settings.attemptsPerRound, Some(song)) &&
                                           !r.window.gameOver && r.window.entryEnabled &&
                                           r.window.buttonsEnabled == s.window.buttonsEnabled)
    ensures r.settings == s.settings
    ensures Valid(s) ==> Valid(r)
  {
    StartNewRound(s.(window := s.window.(gameOver := false), tally := Tally(s.settings.livesTotal, 0, 0, 0)), song)
  }

  /** The settings read by `_apply_start_settings`, each entry's text already
      parsed by `int()` (`None` when parsing fails): the two check boxes; the
      seconds per round clamped into [5, 600]; attempts and lives, parsed in
      one `try`, so a bad attempts entry leaves both alone and a bad lives
      entry the lives, each raised to at least 1; and the inter-round delay, at
      least 300 ms, read only when the advanced panel was opened and its
      earlier entries parsed. */
  function NewSettings(st: Settings, randomize: bool, timeLimit: bool, seconds: Option<int>,
                       attempts: Option<int>, lives: Option<int>, delay: Option<int>): (r: Settings)
    ensures r.randomizeOffset == randomize && r.timeLimitEnabled == timeLimit
    ensures r.perRoundSeconds == (if seconds.Some? then ClampSeconds(seconds.value) else st.perRoundSeconds)
    ensures r.attemptsPerRound == (if attempts.Some? then AtLeast(1, attempts.value) else st.attemptsPerRound)
    ensures r.livesTotal == (if attempts.Some? && lives.Some? then AtLeast(1, lives.value) else st.livesTotal)
    ensures r.interRoundDelayMs == (if delay.Some? then AtLeast(300, delay.value) else st.interRoundDelayMs)
  {
    var st1 := st.(randomizeOffset := randomize, timeLimitEnabled := timeLimit);
    var st2 := if seconds.Some? then st1.(perRoundSeconds := ClampSeconds(seconds.value)) else st1;
    var st3 := if attempts.None? then st2
               else if lives.None? then st2.(attemptsPerRound := AtLeast(1, attempts.value))
               else st2.(attemptsPerRound := AtLeast(1, attempts.value), livesTotal := AtLeast(1, lives.value));
    if delay.Some? then st3.(interRoundDelayMs := AtLeast(300, delay.value)) else st3
  }

  /** The state once `_apply_start_settings` has read its entries: new
      settings, and the lives left reset to the new lives per game when both
      counts parsed. */
  function WithSettings(s: AppState, randomize: bool, timeLimit: bool, seconds: Option<int>,
                        attempts: Option<int>, lives: Option<int>, delay: Option<int>): (r: AppState)
    ensures r.settings == NewSettings(s.settings, randomize, timeLimit, seconds, attempts, lives, delay)
    ensures attempts.Some? && lives.Some? ==> r.tally.livesRemaining == r.settings.livesTotal >= 1
    ensures !(attempts.Some? && lives.Some?) ==> r.tally == s.tally
    ensures r.round == s.round
    ensures Valid(s) && !s.round.active ==> Valid(r)
  {
    var st := NewSettings(s.settings, randomize, timeLimit, seconds, attempts, lives, delay);
    var t := if attempts.Some? && lives.Some? then s.tally.(livesRemaining := st.livesTotal) else s.tally;
    s.(settings := st, tally := t)
  }

  /** `_apply_start_settings`: the settings are applied and the first round
      starts with `song`; once both counts parsed, it does start. */
  function ApplyStartSettings(s: AppState, randomize: bool, timeLimit: bool, seconds: Option<int>,
                              attempts: Option<int>, lives: Option<int>, delay: Option<int>,
                              song: Song): (r: AppState)
    ensures r.settings == NewSettings(s.settings, randomize, timeLimit, seconds, attempts, lives, delay)
    ensures attempts.Some? && lives.Some? ==> (r.tally.livesRemaining == r.settings.livesTotal >= 1 &&
                                               r.round == Round(true, r.settings.attemptsPerRound, Some(song)))
    ensures !(attempts.Some? && lives.Some?) ==> r.tally == s.tally
    ensures Valid(s) && !s.round.active ==> Valid(r)
  {
    StartNewRound(WithSettings(s, randomize, timeLimit, seconds, attempts, lives, delay), song)
  }

  /** `_update_suggestions` with the entry holding `text` and `matches` the
      result of the fuzzy lookup: an empty entry clears the list; either way
      Tab starts again from the first suggestion. */
  function UpdateSuggestions(s: AppState, text: seq<char>, matches: seq<seq<char>>): (r: AppState)
    ensures Strip(text) == [] ==> r.suggestions == []
    ensures Strip(text) != [] ==> r.suggestions == matches
    ensures r.suggestionIndex == 0
    ensures r.(suggestions := s.suggestions, suggestionIndex := s.suggestionIndex) == s
  {
    if Strip(text) == [] then s.(suggestions := [], suggestionIndex := 0)
    else s.(suggestions := matches, suggestionIndex := 0)
  }

  /** `_on_tab_complete`: puts the next suggestion, cycling, into the entry
      (the second component); with no suggestions nothing happens. */
  function OnTabComplete(s: AppState): (r: (AppState, Option<seq<char>>))
    ensures s.suggestions == [] ==> r == (s, None)
    ensures s.suggestions != [] ==> (r.1 == Some(TabPick(s.suggestions, s.suggestionIndex)) &&
                                     r.0 == s.(suggestionIndex := s.suggestionIndex + 1))
    ensures r.1.Some? ==> r.1.value in s.suggestions
  {
    if s.suggestions == [] then (s, None)
    else (s.(suggestionIndex := s.suggestionIndex + 1), Some(s.suggestions[s.suggestionIndex % |s.suggestions|]))
  }

  /** `n` presses of Replay. */
  function Replays(s: AppState, n: nat): AppState {
    if n == 0 then s else OnReplay(Replays(s, n - 1))
  }

  /** Replaying can never lose a round: however often Replay is pressed, an
      active round stays active with at least one attempt and nothing is counted. */
  lemma {:induction false} ReplaysKeepRound(s: AppState, n: nat)
    requires Valid(s) && s.round.active && s.settings.attemptsPerRound >= 1
    ensures Replays(s, n).round.active && Replays(s, n).round.attemptsRemaining >= 1
    ensures Replays(s, n).tally == s.tally && Valid(Replays(s, n))
  {
    if n > 0 {
      ReplaysKeepRound(s, n - 1);
    }
  }

  /** The entries submitted one after another. */
  function Guesses(s: AppState, entries: seq<seq<char>>): AppState
    decreases |entries|
  {
    if entries == [] then s else Guesses(OnGuess(s, entries[0]), entries[1..])
  }

  /** What one wrong guess does to the state `s`, giving `next`. */
  ghost predicate WrongStepFacts(s: AppState, next: AppState) {
    Valid(next) &&
    (s.round.attemptsRemaining > 1 ==>
      next.round.active && next.tally == s.tally && next.round.song == s.round.song &&
      next.round.attemptsRemaining == s.round.attemptsRemaining - 1) &&
    (s.round.attemptsRemaining <= 1 ==>
      !next.round.active &&
      next.tally == s.tally.(totalRounds := s.tally.totalRounds + 1, livesRemaining := s.tally.livesRemaining - 1))
  }

  /** One wrong guess costs an attempt, and the round when it was the last. */
  lemma WrongGuessStep(s: AppState, entry: seq<char>)
    requires Valid(s) && s.round.active && s.round.song.Some?
    requires Judge(entry, s.round.song.value) == Wrong
    ensures WrongStepFacts(s, OnGuess(s, entry))
  {
    assert OnGuess(s, entry) == OnVerdict(s, Wrong);
  }

  /** Where `n` wrong guesses leave a round that had `s.round.attemptsRemaining`
      attempts: still going with `n` fewer, or lost at the last one with one life gone. */
  ghost predicate AfterWrongGuesses(s: AppState, n: int, g: AppState) {
    (n < s.round.attemptsRemaining ==>
      g.round.active && g.tally == s.tally && g.round.attemptsRemaining == s.round.attemptsRemaining - n) &&
    (n == s.round.attemptsRemaining ==>
      !g.round.active &&
      g.tally == s.tally.(totalRounds := s.tally.totalRounds + 1, livesRemaining := s.tally.livesRemaining - 1))
  }

  /** The step of the induction below: a wrong guess followed by `n` more. */
  lemma WrongGuessThen(s: AppState, next: AppState, n: nat, g: AppState)
    requires WrongStepFacts(s, next)
    requires 0 < n < s.round.attemptsRemaining
    requires AfterWrongGuesses(next, n, g)
    ensures AfterWrongGuesses(s, n + 1, g)
  {
  }

  /** An active round with `a` attempts left survives fewer than `a` wrong
      guesses, each costing one attempt, and is lost, costing exactly one
      life, at the `a`-th. */
  lemma {:induction false} WrongGuessesLoseRound(s: AppState, entries: seq<seq<char>>)
    requires Valid(s) && s.round.active && s.round.song.Some? && s.settings.attemptsPerRound >= 1
    requires forall k | 0 <= k < |entries| :: Judge(entries[k], s.round.song.value) == Wrong
    requires |entries| <= s.round.attemptsRemaining
    ensures AfterWrongGuesses(s, |entries|, Guesses(s, entries))
    decreases |entries|
  {
    if entries == [] {
      assert Guesses(s, entries) == s;
    } else {
      var rest := entries[1..];
      var next := OnGuess(s, entries[0]);
      assert Guesses(s, entries) == Guesses(next, rest);
      WrongGuessStep(s, entries[0]);
      if rest == [] {
        assert Guesses(next, rest) == next;
      } else {
        assert forall k | 0 <= k < |rest| :: rest[k] == entries[k + 1];
        WrongGuessesLoseRound(next, rest);
        WrongGuessThen(s, next, |rest|, Guesses(next, rest));
      }
    }
  }

  class SPGuessApp {
    /** The configuration the start screen sets; grouped as one record. */
    var settings: Settings

    // Game state.
    var livesRemaining: int
    var scorePoints: int
    var correctCount: int
    var totalRounds: int
    var roundActive: bool
    var attemptsRemaining: int
    var currentSong: Option<Song>
    var bestScore: int
    var savedBest: Option<int>
    var currentSuggestions: seq<seq<char>>
    var suggestionIndex: nat

    /** What the window shows; grouped as one record. */
    var window: Window

    /** The object's fields as a value. */
    function State(): AppState
      reads this
    {
      AppState(settings, Tally(livesRemaining, scorePoints, correctCount, totalRounds),
               Round(roundActive, attemptsRemaining, currentSong),
               bestScore, savedBest, currentSuggestions, suggestionIndex, window)
    }

    constructor (attempts: int, lives: int, randomize: bool, seconds: int)
      ensures State() == Initial(attempts, lives, randomize, seconds)
    {
      settings := Settings(attempts, lives, seconds, 1500, randomize, true);
      livesRemaining := lives;
      scorePoints := 0;
      correctCount := 0;
      totalRounds := 0;
      roundActive := false;
      attemptsRemaining := attempts;
      currentSong := None;
      bestScore := 0;
      savedBest := None;
      currentSuggestions := [];
      suggestionIndex := 0;
      window := Window(false, true, true, false, false);
    }

    method LoadHighScoreFrom(file: ScoreFile)
      modifies this
      ensures State() == LoadHighScore(old(State()), file)
    {
      match file
      case Missing =>
      case Unreadable => bestScore := 0;
      case Stored(b) => bestScore := b;
    }

    method EndGameNow()
      modifies this
      ensures State() == EndGame(old(State()))
    {
      roundActive := false;
      window := window.(entryEnabled := false, buttonsEnabled := false);
      if scorePoints > bestScore {
        bestScore := scorePoints;
        savedBest := Some(scorePoints);
      }
      window := window.(gameOver := true);
    }

    method StartRound(song: Song)
      modifies this
      ensures State() == StartNewRound(old(State()), song)
    {
      window := window.(nextRoundScheduled := false);
      if livesRemaining <= 0 {
        EndGameNow();
        return;
      }
      roundActive := true;
      attemptsRemaining := settings.attemptsPerRound;
      currentSong := Some(song);
      window := window.(entryEnabled := true);
      currentSuggestions := [];
      suggestionIndex := 0;
    }

    method Finalize(success: bool)
      modifies this
      ensures State() == FinalizeRound(old(State()), success)
    {
      if !roundActive {
        return;
      }
      roundActive := false;
      totalRounds := totalRounds + 1;
      if !success {
        livesRemaining := livesRemaining - 1;
      }
      if livesRemaining <= 0 {
        EndGameNow();
        return;
      }
      window := window.(nextRoundScheduled := true);
    }

    method Guess(entry: seq<char>)
      modifies this
      ensures State() == OnGuess(old(State()), entry)
    {
      if !roundActive || currentSong.None? {
        return;
      }
      var verdict := Judge(entry, currentSong.value);
      Act(verdict);
    }

    /** The part of `_on_guess` that follows the verdict. */
    method Act(verdict: Verdict)
      requires roundActive
      modifies this
      ensures State() == OnVerdict(old(State()), verdict)
    {
      match verdict
      case Close =>
        window := window.(closed := true);
      case Forfeit =>
        Finalize(false);
      case Correct(p) =>
        scorePoints := scorePoints + p;
        correctCount := correctCount + 1;
        Finalize(true);
      case Wrong =>
        attemptsRemaining := attemptsRemaining - 1;
        if attemptsRemaining <= 0 {
          Finalize(false);
        }
    }

    method Replay()
      modifies this
      ensures State() == OnReplay(old(State()))
    {
      if roundActive && attemptsRemaining > 1 {
        attemptsRemaining := attemptsRemaining - 1;
      }
    }

    method Skip()
      modifies this
      ensures State() == OnSkip(old(State()))
    {
      if roundActive {
        Finalize(false);
      }
    }

    /** `_on_quit`. */
    method Quit()
      modifies this
      ensures State() == EndGame(old(State()))
    {
      EndGameNow();
    }

    method TimerExpired()
      modifies this
      ensures State() == TimeUp(old(State()))
    {
      if !roundActive {
        return;
      }
      if settings.timeLimitEnabled {
        Finalize(false);
      }
    }

    method Restart(song: Song)
      modifies this
      ensures State() == PlayAgain(old(State()), song)
    {
      window := window.(gameOver := false);
      livesRemaining := settings.livesTotal;
      correctCount := 0;
      totalRounds := 0;
      scorePoints := 0;
      StartRound(song);
    }

    method ApplyStart(randomize: bool, timeLimit: bool, seconds: Option<int>,
                      attempts: Option<int>, lives: Option<int>, delay: Option<int>, song: Song)
      modifies this
      ensures State() == ApplyStartSettings(old(State()), randomize, timeLimit, seconds, attempts, lives, delay, song)
    {
      ReadSettings(randomize, timeLimit, seconds, attempts, lives, delay);
      StartRound(song);
    }

    /** The part of `_apply_start_settings` that reads the entries. */
    method ReadSettings(randomize: bool, timeLimit: bool, seconds: Option<int>,
                        attempts: Option<int>, lives: Option<int>, delay: Option<int>)
      modifies this
      ensures State() == WithSettings(old(State()), randomize, timeLimit, seconds, attempts, lives, delay)
    {
      settings := settings.(randomizeOffset := randomize, timeLimitEnabled := timeLimit);
      if seconds.Some? {
        settings := settings.(perRoundSeconds := ClampSeconds(seconds.value));
      }
      if attempts.Some? {
        settings := settings.(attemptsPerRound := AtLeast(1, attempts.value));
        if lives.Some? {
          settings := settings.(livesTotal := AtLeast(1, lives.value));
          livesRemaining := settings.livesTotal;
        }
      }
      if delay.Some? {
        settings := settings.(interRoundDelayMs := AtLeast(300, delay.value));
      }
    }

    method RefreshSuggestions(text: seq<char>, matches: seq<seq<char>>)
      modifies this
      ensures State() == UpdateSuggestions(old(State()), text, matches)
    {
      if Strip(text) == [] {
        currentSuggestions := [];
        suggestionIndex := 0;
        return;
      }
      currentSuggestions := matches;
      suggestionIndex := 0;
    }

    method TabComplete() returns (inserted: Option<seq<char>>)
      modifies this
      ensures (State(), inserted) == OnTabComplete(old(State()))
    {
      if currentSuggestions == [] {
        return None;
      }
      var value := currentSuggestions[suggestionIndex % |currentSuggestions|];
      suggestionIndex := suggestionIndex + 1;
      return Some(value);
    }
  }
}
