/** The scoring loops of the command-line game: one round of up to
    `attempts_per_round` guesses (`play_round`) and the session that plays
    rounds while lives remain, with a streak bonus (`run_game`). Audio,
    timers and the console are replaced by the answers the player gives. */
module CliGame {
  import opened Text
  import opened Wrappers
  import opened GuessCli

  /** What happened at one prompt of the attempt loop: the round timer had run
      out before the snippet could be played, or the player typed a line. */
  datatype Attempt = TimeUp | Typed(line: seq<char>)

  /** What `play_round` does: returns `(was_correct, points)`, or raises
      `KeyboardInterrupt` when the player types `quit`. */
  datatype RoundResult = Finished(correct: bool, points: int) | Quit

  /** The words that forfeit a round. */
  const SkipWords: set<seq<char>> := {"skip", "s", "pass", "next"}

  /** `guess.strip().lower()`: no longer than the line, with no capital letter left. */
  function Command(line: seq<char>): (cmd: seq<char>)
    ensures |cmd| <= |line|
    ensures forall k | 0 <= k < |cmd| :: !('A' <= cmd[k] <= 'Z')
  {
    Lower(Strip(line))
  }

  /** How one prompt ends the round, or `None` for a wrong guess that uses up an attempt. */
  function Verdict(a: Attempt, title: seq<char>, artist: seq<char>): (v: Option<RoundResult>)
    ensures a.TimeUp? ==> v == Some(Finished(false, 0))
    ensures a.Typed? && Command(a.line) == "quit" ==> v == Some(Quit)
    ensures a.Typed? && Command(a.line) != "quit" && Command(a.line) in SkipWords ==>
      v == Some(Finished(false, 0))
    ensures a.Typed? && Command(a.line) != "quit" && Command(a.line) !in SkipWords ==>
      (v.None? <==> !IsCorrectGuess(a.line, title)) &&
      (v.Some? ==> v.value == Finished(true, GuessPoints(a.line, artist)))
  {
    match a
    case TimeUp => Some(Finished(false, 0))
    case Typed(line) =>
      var cmd := Command(line);
      if cmd == "quit" then Some(Quit)
      else if cmd in SkipWords then Some(Finished(false, 0))
      else if IsCorrectGuess(line, title) then Some(Finished(true, GuessPoints(line, artist)))
      else None
  }

  /** The points of a round are 3 or 1 when it is won and 0 when it is lost. */
  predicate ScoredLikeARound(r: RoundResult) {
    r.Finished? ==> (if r.correct then r.points == 1 || r.points == 3 else r.points == 0)
  }

  /** The round from prompt `n` on, when `attempts` prompts are allowed in all;
      a won round scores 1 or 3 and a lost one 0. */
  function RoundFrom(title: seq<char>, artist: seq<char>, attempts: int, answer: nat -> Attempt, n: nat): (r: RoundResult)
    ensures ScoredLikeARound(r)
    decreases attempts - n
  {
    if n >= attempts then Finished(false, 0)
    else
      match Verdict(answer(n), title, artist)
      case Some(r) => r
      case None => RoundFrom(title, artist, attempts, answer, n + 1)
  }

  /** Prompts `from` to `to` (exclusive) were all wrong guesses. */
  predicate AllWrong(title: seq<char>, artist: seq<char>, answer: nat -> Attempt, from: nat, to: nat) {
    forall m: nat :: from <= m < to ==> Verdict(answer(m), title, artist).None?
  }

  /** `play_round`: prompt `n` is answered by `answer(n)`. */
  method PlayRound(title: seq<char>, artist: seq<char>, attemptsPerRound: int, answer: nat -> Attempt)
    returns (result: RoundResult)
    ensures result == RoundFrom(title, artist, attemptsPerRound, answer, 0)
  {
    var attemptsRemaining := attemptsPerRound;
    var n: nat := 0;
    while attemptsRemaining > 0
      invariant attemptsRemaining == attemptsPerRound - n
      invariant RoundFrom(title, artist, attemptsPerRound, answer, 0) ==
                RoundFrom(title, artist, attemptsPerRound, answer, n)
      decreases attemptsRemaining
    {
      match answer(n)
      case TimeUp =>
        return Finished(false, 0);
      case Typed(guess) =>
        var cmd := Command(guess);
        if cmd == "quit" {
          return Quit;
        }
        if cmd in SkipWords {
          return Finished(false, 0);
        }
        if IsCorrectGuess(guess, title) {
          var points := if GuessIncludesArtist(guess, artist) then 3 else 1;
          return Finished(true, points);
        }
        attemptsRemaining := attemptsRemaining - 1;
        n := n + 1;
    }
    return Finished(false, 0);
  }

  /** The round is settled by its first prompt that is not a wrong guess, if that
      comes within the allowed attempts (`n` is that prompt); otherwise it is lost
      for running out of attempts (`n` is the number of attempts). */
  lemma {:induction false} RoundDecidedByFirstVerdict(title: seq<char>, artist: seq<char>, attempts: int,
                                                      answer: nat -> Attempt, from: nat)
    returns (n: nat)
    requires from <= attempts
    ensures from <= n && AllWrong(title, artist, answer, from, n)
    ensures n < attempts ==> (Verdict(answer(n), title, artist).Some? &&
      RoundFrom(title, artist, attempts, answer, from) == Verdict(answer(n), title, artist).value)
    ensures n >= attempts ==> (n == attempts &&
      RoundFrom(title, artist, attempts, answer, from) == Finished(false, 0))
    decreases attempts - from
  {
    if from == attempts {
      n := from;
    } else if Verdict(answer(from), title, artist).Some? {
      n := from;
    } else {
      n := RoundDecidedByFirstVerdict(title, artist, attempts, answer, from + 1);
    }
  }

  /** Quitting at the first prompt ends the session whatever the title. */
  lemma QuitFirstIsQuit(title: seq<char>, artist: seq<char>, attempts: int, answer: nat -> Attempt)
    requires attempts >= 1 && answer(0) == Typed(" QUIT ")
    ensures RoundFrom(title, artist, attempts, answer, 0) == Quit
  {
    QuitCommand();
  }

  /** Surrounding spaces and capitals do not hide the quit command. */
  lemma QuitCommand()
    ensures Command(" QUIT ") == "quit"
  {
    var s := " QUIT ";
    var i, j := StripCharsSlice(s, Whitespace);
    assert s[1] !in Whitespace && s[4] !in Whitespace;
    assert i <= 1;
    assert j >= 5;
    assert Strip(s) == "QUIT";
    assert Lower("QUIT") == "quit";
  }

  // ---------------------------------------------------------------- run_game

  /** The counters `run_game` keeps. */
  datatype Tally = Tally(totalRounds: int, correctCount: int, scorePoints: int, currentStreak: int, livesRemaining: int)

  function Initial(lives: int): Tally {
    Tally(0, 0, 0, 0, lives)
  }

  /** One pass of the loop body after `play_round` returned `(wasCorrect, earned)`. */
  function Record(t: Tally, wasCorrect: bool, earned: int): (u: Tally)
    ensures u.totalRounds == t.totalRounds + 1
    ensures wasCorrect ==> (u.correctCount == t.correctCount + 1 &&
      u.scorePoints == t.scorePoints + earned + (if t.currentStreak >= 1 then 1 else 0) &&
      u.currentStreak == t.currentStreak + 1 && u.livesRemaining == t.livesRemaining)
    ensures !wasCorrect ==> (u.correctCount == t.correctCount && u.scorePoints == t.scorePoints &&
      u.currentStreak == 0 && u.livesRemaining == t.livesRemaining - 1)
  {
    if wasCorrect then
      var streakBonus := if t.currentStreak >= 1 then 1 else 0;
      t.(totalRounds := t.totalRounds + 1, correctCount := t.correctCount + 1,
         scorePoints := t.scorePoints + earned + streakBonus, currentStreak := t.currentStreak + 1)
    else
      t.(totalRounds := t.totalRounds + 1, livesRemaining := t.livesRemaining - 1, currentStreak := 0)
  }

  /** The session from tally `t` on, with `rounds` the results of the rounds
      it would play next: it goes on while lives remain and stops at a quit. */
  function Session(t: Tally, rounds: seq<RoundResult>): (u: Tally)
    ensures t.totalRounds <= u.totalRounds <= t.totalRounds + |rounds|
    ensures t.livesRemaining >= 0 ==> 0 <= u.livesRemaining <= t.livesRemaining
    decreases |rounds|
  {
    if t.livesRemaining <= 0 || rounds == [] then t
    else
      match rounds[0]
      case Quit => t
      case Finished(c, p) => Session(Record(t, c, p), rounds[1..])
  }

  /** The high score after the session: the file is rewritten only when the score beats it. */
  function NewBest(best: int, score: int): (r: int)
    ensures r >= best && r >= score
    ensures r == best || r == score
  {
    if score > best then score else best
  }

  /** `run_game`: plays the given round results in order and returns the final
      counters and the best score kept afterwards. */
  method RunGame(lives: int, bestScore: int, rounds: seq<RoundResult>) returns (t: Tally, best: int)
    ensures t == Session(Initial(lives), rounds)
    ensures best == NewBest(bestScore, t.scorePoints)
  {
    t := Initial(lives);
    var i := 0;
    while t.livesRemaining > 0 && i < |rounds|
      invariant 0 <= i <= |rounds|
      invariant Session(Initial(lives), rounds) == Session(t, rounds[i..])
      decreases |rounds| - i
    {
      if rounds[i].Quit? {
        break;
      }
      assert rounds[i..][1..] == rounds[i + 1..];
      var wasCorrect, earned := rounds[i].correct, rounds[i].points;
      t := Record(t, wasCorrect, earned);
      i := i + 1;
    }
    best := if t.scorePoints > bestScore then t.scorePoints else bestScore;
  }

  /** What the counters keep throughout a session that started with `lives` lives. */
  predicate Consistent(t: Tally, lives: int) {
    0 <= t.correctCount <= t.totalRounds &&
    t.livesRemaining == lives - (t.totalRounds - t.correctCount) &&
    0 <= t.currentStreak <= t.correctCount &&
    t.correctCount <= t.scorePoints <= 4 * t.correctCount
  }

  predicate AllScored(rounds: seq<RoundResult>) {
    forall k :: 0 <= k < |rounds| ==> ScoredLikeARound(rounds[k])
  }

  /** Every failed round costs exactly one life, every won round earns 1 to 4
      points, and the streak never exceeds the number of wins. */
  lemma {:induction false} SessionConsistent(t: Tally, lives: int, rounds: seq<RoundResult>)
    requires Consistent(t, lives) && AllScored(rounds)
    ensures Consistent(Session(t, rounds), lives)
    decreases |rounds|
  {
    if t.livesRemaining > 0 && rounds != [] && rounds[0].Finished? {
      SessionConsistent(Record(t, rounds[0].correct, rounds[0].points), lives, rounds[1..]);
    }
  }

  /** A session that stops before its rounds run out and without a quit has used up every life. */
  lemma {:induction false} SessionEndsOutOfLives(t: Tally, rounds: seq<RoundResult>)
    requires forall k :: 0 <= k < |rounds| ==> rounds[k].Finished?
    requires Session(t, rounds).totalRounds < t.totalRounds + |rounds|
    ensures Session(t, rounds).livesRemaining <= 0
    decreases |rounds|
  {
    if t.livesRemaining > 0 && rounds != [] {
      SessionEndsOutOfLives(Record(t, rounds[0].correct, rounds[0].points), rounds[1..]);
    }
  }

  function SumPoints(rounds: seq<RoundResult>): int
    requires forall k :: 0 <= k < |rounds| ==> rounds[k].Finished?
  {
    if rounds == [] then 0 else rounds[0].points + SumPoints(rounds[1..])
  }

  /** A run of won rounds earns its round points plus one streak point for every
      round after the first (or for every round, when a streak was already running). */
  lemma {:induction false} WinningRunScore(t: Tally, rounds: seq<RoundResult>)
    requires t.livesRemaining > 0 && t.currentStreak >= 0
    requires forall k :: 0 <= k < |rounds| ==> rounds[k].Finished? && rounds[k].correct
    ensures Session(t, rounds).scorePoints ==
      t.scorePoints + SumPoints(rounds) +
      (if rounds == [] then 0 else if t.currentStreak >= 1 then |rounds| else |rounds| - 1)
    decreases |rounds|
  {
    if rounds != [] {
      var u := Record(t, true, rounds[0].points);
      WinningRunScore(u, rounds[1..]);
    }
  }
}
