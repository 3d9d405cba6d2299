# SPGuess in Dafny

SPGuess is a song-guessing game. It plays a short snippet of a track from the
player's Spotify library, and the player types the title. This project models
the core of the game and proves properties of the model:

- **Guess evaluation** (`guess_cli.py`): `normalize_title`, `canonicalize_title`,
  `guess_contains_title`, `is_correct_guess` (with the `difflib` similarity ratio
  it relies on) and `guess_includes_artist`.
- **Command-line scoring loops** (`guess_cli.py`): the attempt loop of
  `play_round` and the lives, points and streak bookkeeping of `run_game`.
- **Windowed game state** (`ui_app.py`): the round and score state of
  `SPGuessApp`. The events that change it are start a round, guess, replay,
  skip, time up, finalize, end of game, play again, the start-screen settings,
  suggestions and Tab completion.
- **Synchronised lyrics** (`test_snippet.py`): `parse_lrc` turns LRC text into
  timed lines, and `find_line_at` picks the line showing at a given time.
- **Playback** (`spotify_player.py`): device choice, pause with a one-time
  warning, the volume fade-out schedule and the restore rule, and `play_track_for`.
- **Client** (`spotify_client.py`): where the credentials file is looked for,
  credential precedence (file, then environment, then built-in defaults), the
  choice of authorisation flow, and the paging loop of `get_liked_tracks`.
- **Sample-song updater** (`scripts/update_test_song.py`): the search query,
  the record built from the first hit, the merge into the existing JSON and the
  example offsets.

The Dafny form follows the source. Text processing, matching and parsing are
functions, with lemmas about them. Loops that build results are methods with
loop invariants, each proved against a specification function:

- `PlayRound` and `RunGame` in `CliGame`;
- `CollectLines`, `AppendTagged` and `FindLineAt` in `Lrc` (`ParseLrc` sorts
  what `CollectLines` gathers);
- `FindCredsFile`, `AppendRecords` and `GetLikedTracks` in `SpotifyClient`;
- `StepVolumeDown` in `SpotifyPlayer`.

Objects whose fields change in place are classes:

- `SpotifyPlayer`, with its warning flag and the log of requests it has sent;
- `SPGuessApp`, whose methods are tied to pure transition functions on an
  `AppState` value;
- `SpotifyClient`.

Python strings are `seq<char>`, and only their ASCII behaviour is modelled:
`str.lower`, `str.isspace`, `\s` and `strip()`. The Spotify Web API, files,
environment variables, the clock and randomness are inputs. Examples are the
devices list, the answer of each request, the parsed `.Creds.ini` files, the
song `random.choice` picks, and the outcome of each prompt.

Files:

- `wrappers.dfy`: `Option`.
- `text.dfy`: Python string operations.
- `similarity.dfy`: the `difflib` ratio.
- `guess_cli.dfy`, `cli_game.dfy`, `ui_app.dfy`, `lrc.dfy`, `spotify_player.dfy`,
  `spotify_client.dfy`, `update_test_song.dfy`: one module per core file
  (`guess_cli.py` is split in two).

Two behaviours of the code are easy to miss:

- `canonicalize_title` is not idempotent when a title holds whitespace other
  than plain spaces. The `\s{2,}` squash runs last, so it can expose a `" - "`
  or a dash that only a second call removes. "A\t\t- B" gives "A - B", which
  then gives "A" (`GuessCli.CanonicalizeNotIdempotent`). "-\t-Title" gives
  "-Title", which then gives "Title". On titles whose whitespace is plain
  spaces it is idempotent (`GuessCli.CanonicalizeIdempotentPlain`).
- `ui_app.py` imports and calls `evaluate_guess`, which `guess_cli.py` does not
  define. Its verdict is modelled as `is_correct_guess` (`UiApp.EvaluateGuess`),
  and its similarity value is not modelled.

## Model

| member | source | states |
|---|---|---|
| Text.Lower | guess_cli.py:15 | `str.lower` keeps the length and lowers each character on its own, in place (ASCII letters only) |
| Text.LeadCount | guess_cli.py:66 | how many leading characters are in the strip set: all of them are, and the next is not |
| Text.TrailCount | guess_cli.py:66 | the same for trailing characters |
| Text.StripChars | guess_cli.py:66 | `str.strip(chars)`: neither end of the result is in the set, and it is no longer than the input |
| Text.StripCharsSlice | guess_cli.py:66 | what stripping removes is a prefix and a suffix made only of characters of the set |
| Text.Strip | guess_cli.py:17 | `str.strip()` leaves no whitespace at either end |
| Text.StripCharsEmpty | guess_cli.py:66 | stripping leaves nothing exactly when every character is in the set |
| Text.StripCharsNoop | guess_cli.py:66 | stripping a string whose ends are not in the set changes nothing |
| Text.SliceKeepsSpacing | guess_cli.py:67 | a slice keeps "no double whitespace" and "only plain spaces" |
| Text.StripKeepsSpacing | guess_cli.py:67 | stripping keeps "no double whitespace" and "only plain spaces" |
| Text.SquashSpaceRuns | guess_cli.py:17 | `re.sub(r"\s+", " ")` and, at line 67, `re.sub(r"\s{2,}", " ")`: no two adjacent whitespace characters remain; with `\s+`, every whitespace character is a plain space; empty exactly when the input is empty |
| Text.SquashNoop | guess_cli.py:67 | a string of single plain spaces is left unchanged |
| Text.SquashKeepsLast | guess_cli.py:67 | a last character that is not whitespace stays last |
| Text.SquashFrom | guess_cli.py:17 | every character produced is a space or a character of the input |
| Text.SquashKeepsNonSpace | guess_cli.py:17 | squashing never touches a non-whitespace character |
| Text.StripKeepsNonSpace | guess_cli.py:17 | stripping never removes a non-whitespace character |
| Text.FindFrom | guess_cli.py:82 | the scan behind `p in s` returns a position where `p` occurs, or -1 |
| Text.FindFromFirst | guess_cli.py:82 | the scan finds the first occurrence, and returns -1 only when there is none |
| Text.Contains | guess_cli.py:82 | `token in guess` holds exactly when the token occurs somewhere |
| Text.Occurs | guess_cli.py:82 | `p in s` as an occurrence at some position; a pattern longer than the text never occurs |
| Text.SplitOn | guess_cli.py:57 | `str.split(sep)` gives at least one part |
| Text.SplitPartsLackSeparator | guess_cli.py:57 | no part contains the separator |
| Text.SplitJoin | guess_cli.py:57 | joining the parts with the separator gives the input back |
| Text.SplitPartSlice | guess_cli.py:57 | each part is a slice of the split text |
| Text.JoinAllIn | guess_cli.py:57 | joining parts and a separator made of characters of a set gives text made of them |
| Text.Join | spotify_client.py:118 | `sep.join(parts)` starts with the first part, and with a non-empty separator it is empty exactly when there are no parts or one empty part |
| Text.SplitWithoutSeparator | guess_cli.py:57 | a string without the separator splits into itself alone |
| Similarity.RunLen | guess_cli.py:42 | the common run that starts at a pair of positions: it matches, and it cannot be extended |
| Similarity.Scan | guess_cli.py:42 | the scan over all start positions returns the longest match, earliest in `a`, then earliest in `b` (difflib's tie-break) |
| Similarity.LongestMatch | guess_cli.py:42 | `find_longest_match` returns the longest block, ties broken as in difflib |
| Similarity.MatchTotal | guess_cli.py:42 | the matched characters (M of `ratio = 2M/T`) are at most the length of either range |
| Similarity.Matches | guess_cli.py:42 | M, the matched characters of the two whole strings, is at most the length of the shorter one |
| Similarity.SelfMatch | guess_cli.py:42 | a string matches itself completely (ratio 1) |
| Similarity.SelfCloseEnough | guess_cli.py:43 | identical strings pass the 0.85 threshold |
| Similarity.CloseEnough | guess_cli.py:42-43 | `ratio() >= 0.85`, compared as 40M >= 17(|a| + |b|); passing needs lengths within a factor of 23/17 |
| Similarity.DisjointNoMatch | guess_cli.py:43 | strings with no common character have M = 0 and pass only when both are empty |
| GuessCli.KeepAllowed | guess_cli.py:16 | `re.sub(r"[^a-z0-9\s]", "")` keeps only lower-case letters, digits and whitespace |
| GuessCli.NormalizeTitle | guess_cli.py:13-18 | the result has only `a-z`, `0-9` and single interior spaces, none at either end |
| GuessCli.StripKeepsWordChars | guess_cli.py:17 | after collapsing and stripping, only word characters and single spaces remain |
| GuessCli.NormalizeFixesNormalized | guess_cli.py:13-18 | a normalised text is its own normal form |
| GuessCli.NormalizedIsPlain | guess_cli.py:13-18 | a normalised text has only kept characters and plain spaces |
| GuessCli.NormalizeIdempotent | guess_cli.py:13-18 | normalising twice is normalising once |
| GuessCli.NormalizeKeepsAlnum | guess_cli.py:13-18 | apart from spaces, normalising keeps exactly the letters and digits of the lower-cased input, in order |
| GuessCli.UntilClose | guess_cli.py:55 | how far `[^)]*` reaches: up to the first `)` |
| GuessCli.GroupLen | guess_cli.py:55 | the match of `\s*\([^)]*\)` at a position ends with `)` |
| GuessCli.StripParens | guess_cli.py:55 | the substitution never lengthens the text |
| GuessCli.StripParensNoClose | guess_cli.py:55 | text without `)` is left as it is |
| GuessCli.StripParensNoGroup | guess_cli.py:55 | text in which no `(` is followed by a `)` is left as it is |
| GuessCli.StripParensKeepsPlain | guess_cli.py:55 | the substitution brings in no whitespace: plain-spaced text stays plain-spaced |
| GuessCli.StripParensLeavesNoGroup | guess_cli.py:55 | afterwards no `(` is followed later by a `)`: an unclosed `(` is the only one that survives |
| GuessCli.UnclosedParen | guess_cli.py:55 | a `(` the pattern does not match has no `)` after it |
| GuessCli.GroupRemoved | guess_cli.py:55 | a group at the front is removed together with the whitespace run before it |
| GuessCli.PrefixKept | guess_cli.py:55 | text with no `(` that does not end in whitespace is kept as it is, whatever follows |
| GuessCli.GroupRemovedAfter | guess_cli.py:55 | a group further in is removed together with the whitespace run before it, and the text in front of that run is kept |
| GuessCli.StripAll | guess_cli.py:57 | `[p.strip() for p in parts]` |
| GuessCli.FirstNonEmpty | guess_cli.py:58-62 | the loop picks the first non-empty segment; -1 when all are empty |
| GuessCli.Canonicalize | guess_cli.py:46-68 | the canonical title has no whitespace at either end and no two adjacent whitespace characters |
| GuessCli.SegmentBaseChoice | guess_cli.py:57-64 | the base is the first segment that strips to something non-empty, else the whole paren-free text |
| GuessCli.SegmentBase | guess_cli.py:57-64 | the base is empty exactly when the paren-free title is empty |
| GuessCli.FirstSeparatorAfter | guess_cli.py:57 | the first `" - "` of `a + " - " + b` is the one after `a`, when `a` has none of its own |
| GuessCli.DropsDashSuffix | guess_cli.py:57-64 | everything from the first `" - "` on is dropped, e.g. "Bohemian Rhapsody - Remastered 2011" keeps only its first part |
| GuessCli.SearchTokenSpan | guess_cli.py:30-31 | `re.search` of `(?:^\| )nt(?:$\| )` succeeds exactly when the title occurs as a whole run of words |
| GuessCli.TokenSpanAt | guess_cli.py:30 | the title matched at one position splits the guess into text before, the title, and text after; a guess equal to the title matches only at 0 |
| GuessCli.GuessContainsTitle | guess_cli.py:21-31 | false for an empty title; otherwise true exactly when the guess equals the title or contains it as a whole-word span |
| GuessCli.EqualIsTokenSpan | guess_cli.py:27-31 | an exact match is one case of the token-span rule |
| GuessCli.BaseOfPlainText | guess_cli.py:55-64 | a trimmed text in which no `(` is followed by a `)`, and with no `" - "`, is its own base |
| GuessCli.CanonicalFixed | guess_cli.py:46-68 | a title already in canonical form is left unchanged: no `(` followed by a `)`, no `" - "`, only single plain spaces, and no character of the strip set `" -–—_\"' "` at either end |
| GuessCli.TrimmedBaseShape | guess_cli.py:55-66 | for plain-spaced text without a closed group, the chosen base after the dash strip has no closed group, no `" - "` and only plain spaces |
| GuessCli.SquashKeepsNoGroup | guess_cli.py:67 | squashing whitespace runs never puts a `)` after a `(` |
| GuessCli.SquashKeepsNoSeparator | guess_cli.py:67 | squashing runs of plain spaces never makes a `" - "` |
| GuessCli.CanonicalizeShape | guess_cli.py:46-68 | for a title whose whitespace is plain spaces, the three promised rules hold of the result: no parenthesised group, no `" - "`, no dash, quote, underscore or space at either end; spaces are single and plain |
| GuessCli.CanonicalizeIdempotentPlain | guess_cli.py:46-68 | on such titles, canonicalising twice is canonicalising once |
| GuessCli.SquashTabRun | guess_cli.py:67 | the squash turns `a\t\t- b` into `a - b` |
| GuessCli.TabTitleBase | guess_cli.py:55-64 | `a\t\t- b` has no `" - "` and is its own base |
| GuessCli.TabRunExposesSeparator | guess_cli.py:46-68 | canonicalising `a\t\t- b` gives `a - b` |
| GuessCli.DashSuffixCut | guess_cli.py:57-64 | canonicalising `a - b` gives `a` |
| GuessCli.CanonicalizeNotIdempotent | guess_cli.py:46-68 | canonicalising `a\t\t- b` twice gives `a`, which differs from the first result: the function is not idempotent |
| GuessCli.OneCharCanonical | guess_cli.py:46-68 | a single character that is neither whitespace nor in the strip set is its own canonical title |
| GuessCli.CarIsCanonical | guess_cli.py:46-68 | "car" is its own canonical title |
| GuessCli.SubwordIsNoMatch | guess_cli.py:21-31 | a title inside a longer word does not match: "scarlet" does not contain "car" |
| GuessCli.IsCorrectGuess | guess_cli.py:34-43 | containment is accepted first; otherwise both normalised sides must be non-empty and the ratio at least 0.85 |
| GuessCli.SameNormalFormIsCorrect | guess_cli.py:34-43 | a guess with the same non-empty normal form as the canonical title is correct |
| GuessCli.FuzzyNeedsComparableLength | guess_cli.py:40-43 | when the normalised lengths differ by more than 23/17, only containment can make a guess correct |
| GuessCli.DelimLen | guess_cli.py:79 | the delimiter `,\|&\|feat\.?\|with\|x` (any case) at a position has length 0, 1, 4 or 5 |
| GuessCli.SplitArtists | guess_cli.py:79 | `re.split` gives at least one token |
| GuessCli.Delimiters | guess_cli.py:79 | there is one delimiter between each pair of tokens |
| GuessCli.SplitArtistsRoundTrip | guess_cli.py:79 | the tokens and delimiters interleaved give the artist string back |
| GuessCli.DelimitersMatch | guess_cli.py:79 | every cut is at a genuine delimiter |
| GuessCli.TokensHaveNoDelimiter | guess_cli.py:79 | no token contains a delimiter |
| GuessCli.TokenIsPrefix | guess_cli.py:79 | the first token is a prefix of the artist string |
| GuessCli.SplitInsideName | guess_cli.py:79 | the `x` alternative also matches inside names: "Alex" splits into "Ale" and "" |
| GuessCli.AnyTokenIn | guess_cli.py:80-83 | the loop finds a non-empty normalised token inside the guess exactly when one exists |
| GuessCli.GuessIncludesArtist | guess_cli.py:75-85 | true exactly when some non-empty token, or the whole normalised artist, occurs in the normalised guess; always true for an artist that normalises to "" |
| GuessCli.GuessPoints | guess_cli.py:150 | 3 points when the guess mentions the artist, else 1 (the window scores the same way at ui_app.py:457) |
| CliGame.Verdict | guess_cli.py:141-153 | a prompt ends the round on time-out, `quit` or a skip word (in that order of checking) or on a correct guess; a wrong guess continues |
| CliGame.Command | guess_cli.py:141 | `guess.strip().lower()` is no longer than the line and has no capital letter |
| CliGame.PlayRound | guess_cli.py:113-161 | the attempt loop returns what the recursive round definition gives |
| CliGame.RoundDecidedByFirstVerdict | guess_cli.py:113-161 | the round is decided by its first prompt that is not a wrong guess; out of attempts means lost with 0 points |
| CliGame.RoundFrom | guess_cli.py:113-161 | the round from a given prompt on, which PlayRound is proved equal to; a won round scores 1 or 3 and a lost round 0 |
| CliGame.QuitFirstIsQuit | guess_cli.py:141-142 | `quit` at the first prompt ends the session |
| CliGame.QuitCommand | guess_cli.py:141 | surrounding spaces and capitals do not hide `quit` |
| CliGame.Record | guess_cli.py:210-224 | a win adds the points plus a streak bonus of 1 after an earlier win; a loss costs one life and resets the streak |
| CliGame.NewBest | guess_cli.py:235-241 | the stored best is the larger of the old best and the score |
| CliGame.RunGame | guess_cli.py:195-241 | the loop's counters equal the session fold, and the best score is updated |
| CliGame.SessionConsistent | guess_cli.py:196-224 | lives lost equal rounds lost; every won round earns 1 to 4 points |
| CliGame.Session | guess_cli.py:195-224 | the session fold RunGame is proved equal to; it plays at most the rounds given, and from a non-negative start lives never go below zero and never increase |
| CliGame.SessionEndsOutOfLives | guess_cli.py:196 | a session that stops early without a quit has run out of lives |
| CliGame.WinningRunScore | guess_cli.py:210-216 | a run of wins earns its points plus one streak point for each win after the first |
| UiApp.ClampSeconds | ui_app.py:261 | `max(5, min(600, secs))` lies in [5, 600] and keeps values already in range |
| UiApp.AtLeast | ui_app.py:266-282 | `max(lo, n)` |
| UiApp.TabPick | ui_app.py:553 | the suggestion chosen is `suggestions[index % len]` and belongs to the list |
| UiApp.EvaluateGuess | ui_app.py:455 | the verdict of the missing `evaluate_guess`, taken as `is_correct_guess`: a guess with the title's normal form is accepted, an empty one never is |
| UiApp.Valid | ui_app.py:455-500 | the state invariant the handlers keep: points come from counted wins worth 1 or 3, lives never exceed the total, an active round has a song, a life and its attempts; so the score is at most 3 per round |
| UiApp.Initial | ui_app.py:14-57 | a fresh game: no round, full lives, no points, time limit on, 1500 ms delay, and the state invariant holds |
| UiApp.LoadHighScore | ui_app.py:317-325 | a stored score becomes the best, an unreadable file resets it to 0, a missing file keeps it; nothing else changes |
| UiApp.EndGame | ui_app.py:337-348 | the round stops, inputs are disabled, the best becomes max(best, points) and is saved only when beaten; the invariant is kept |
| UiApp.StartNewRound | ui_app.py:178-184 | without lives the game ends; otherwise a round starts with full attempts on the picked song |
| UiApp.FinalizeRound | ui_app.py:490-502 | no effect without an active round; otherwise the round counts, a failure costs a life, and the game ends at 0 lives |
| UiApp.Judge | ui_app.py:444-457 | `/quit` and `/exit` close the window, skip commands forfeit the round, otherwise the guess is judged, with 3 or 1 points when correct |
| UiApp.OnVerdict | ui_app.py:446-479 | what each verdict does: close, finalize as failure, score and finalize as success, or spend an attempt (finalizing at 0) |
| UiApp.OnGuess | ui_app.py:441-479 | ignored without an active round and song; otherwise the verdict is applied; the invariant is kept |
| UiApp.OnReplay | ui_app.py:403-405 | replaying costs an attempt only while more than one is left; nothing else changes |
| UiApp.OnSkip | ui_app.py:481-484 | an active round is finalized as a failure; otherwise nothing changes |
| UiApp.TimeUp | ui_app.py:387-397 | time running out with the limit enabled fails the round like a skip; otherwise nothing changes |
| UiApp.PlayAgain | ui_app.py:375-382 | counters reset to full lives and zero points, and a new round starts |
| UiApp.NewSettings | ui_app.py:256-282 | each setting that parses is clamped (seconds to [5, 600], attempts and lives at least 1, delay at least 300); lives need attempts to parse too |
| UiApp.WithSettings | ui_app.py:256-282 | new lives also refill the remaining lives; otherwise the counters stay |
| UiApp.ApplyStartSettings | ui_app.py:256-286 | the settings are applied and the first round is started |
| UiApp.UpdateSuggestions | ui_app.py:504-533 | empty text clears the suggestions; otherwise they are the matches; the index resets |
| UiApp.OnTabComplete | ui_app.py:549-555 | with suggestions, the next one (cycling) is inserted and the index advances; without, nothing happens |
| UiApp.ReplaysKeepRound | ui_app.py:403-405 | however often Replay is pressed, the round stays active with at least one attempt left and the score is unchanged |
| UiApp.WrongGuessStep | ui_app.py:468-479 | one wrong guess costs an attempt and keeps the round while more than one was left; at the last attempt it ends the round with one life lost |
| UiApp.WrongGuessesLoseRound | ui_app.py:468-479 | fewer wrong guesses than attempts keep the round; exactly that many end it with one life lost |
| UiApp.SPGuessApp.constructor | ui_app.py:14-57 | the fields start as `Initial` says |
| UiApp.SPGuessApp.LoadHighScoreFrom | ui_app.py:317-325 | the new state is `LoadHighScore` of the old |
| UiApp.SPGuessApp.EndGameNow | ui_app.py:337-348 | the new state is `EndGame` of the old |
| UiApp.SPGuessApp.StartRound | ui_app.py:178-184 | the new state is `StartNewRound` of the old |
| UiApp.SPGuessApp.Finalize | ui_app.py:490-502 | the new state is `FinalizeRound` of the old |
| UiApp.SPGuessApp.Guess | ui_app.py:441-479 | the new state is `OnGuess` of the old |
| UiApp.SPGuessApp.Act | ui_app.py:446-479 | the new state is `OnVerdict` of the old |
| UiApp.SPGuessApp.Replay | ui_app.py:403-405 | the new state is `OnReplay` of the old |
| UiApp.SPGuessApp.Skip | ui_app.py:481-484 | the new state is `OnSkip` of the old |
| UiApp.SPGuessApp.Quit | ui_app.py:486-488 | quitting ends the game |
| UiApp.SPGuessApp.TimerExpired | ui_app.py:387-397 | the new state is `TimeUp` of the old |
| UiApp.SPGuessApp.Restart | ui_app.py:375-382 | the new state is `PlayAgain` of the old |
| UiApp.SPGuessApp.ApplyStart | ui_app.py:256-286 | the new state is `ApplyStartSettings` of the old |
| UiApp.SPGuessApp.ReadSettings | ui_app.py:256-282 | the new state is `WithSettings` of the old |
| UiApp.SPGuessApp.RefreshSuggestions | ui_app.py:504-533 | the new state is `UpdateSuggestions` of the old |
| UiApp.SPGuessApp.TabComplete | ui_app.py:549-555 | the new state and the inserted text are what `OnTabComplete` gives |
| Lrc.LineLen | test_snippet.py:15 | the first line ends at the first line break |
| Lrc.AfterBreak | test_snippet.py:15 | `\r\n` counts as one break, and what follows is shorter |
| Lrc.SplitLines | test_snippet.py:15 | `splitlines()` gives no more lines than characters, and none exactly for empty text |
| Lrc.SplitLinesHaveNoBreak | test_snippet.py:15 | no line from `splitlines()` contains a line break |
| Lrc.DigitRun | test_snippet.py:21 | `\d{1,n}` takes at most n digits, and all of them are digits |
| Lrc.OptionalPart | test_snippet.py:21 | an optional part `(?:sep\d{min,max})?` is absent unless the separator is present |
| Lrc.TagAt | test_snippet.py:21 | a tag starts at `[` and ends before the next index |
| Lrc.TagTail | test_snippet.py:21 | the rest of a tag ends with `]` |
| Lrc.TagsFrom | test_snippet.py:21 | `re.findall` of the tag pattern: at most one tag per remaining character |
| Lrc.TagMs | test_snippet.py:22-31 | a three-part tag counts hours, minutes and seconds, a two-part tag minutes and seconds; a fraction of 1 to 3 digits adds less than a second |
| Lrc.FracMs | test_snippet.py:26-31 | one to three fraction digits, scaled to milliseconds, are less than 1000 ms |
| Lrc.Value | test_snippet.py:27 | `int()` of a digit string is below 10 to the power of its length |
| Lrc.LeadGroupLen | test_snippet.py:32 | `^\[[^]]+\]+` matches from `[` to a `]`, at least 3 characters |
| Lrc.LineText | test_snippet.py:32 | the text of a line is stripped |
| Lrc.EntriesFor | test_snippet.py:21-33 | one entry per tag, in order, all with the line's text |
| Lrc.LineEntries | test_snippet.py:16-33 | a blank line gives nothing; otherwise one entry per tag, all sharing the text |
| Lrc.Collect | test_snippet.py:15-33 | the line loop before sorting, in file order; a file of blank lines gives no entries |
| Lrc.NoBracketNoTags | test_snippet.py:21 | a line without `[` has no tags |
| Lrc.InsertByTime | test_snippet.py:34 | insertion keeps the same entries plus the new one |
| Lrc.SortByTime | test_snippet.py:34 | sorting is a permutation |
| Lrc.InsertKeepsSorted | test_snippet.py:34 | inserting into a sorted list keeps it sorted |
| Lrc.SortByTimeIsStableSort | test_snippet.py:34 | `list.sort(key=time)` is sorted, a permutation, and stable (entries with equal times keep their order) |
| Lrc.ParseLrc | test_snippet.py:13-35 | the entries are the tags of the non-blank lines, stably sorted by time |
| Lrc.CollectLines | test_snippet.py:15-33 | the loop over the lines appends exactly the entries the line-by-line definition gives, in file order |
| Lrc.AppendTagged | test_snippet.py:21-33 | the inner loop appends one entry per tag |
| Lrc.Reach | test_snippet.py:53-58 | where the scan stops: the entries before have time at most `ms`, the next is later |
| Lrc.LastText | test_snippet.py:55-56 | the text kept is "" or one of the texts |
| Lrc.FindLineAt | test_snippet.py:51-59 | the result is the last non-empty text among the entries scanned |
| Lrc.NothingBeforeFirst | test_snippet.py:51-59 | before the first entry's time, the result is "" |
| Lrc.LastTextIsLastNonEmpty | test_snippet.py:55-56 | "" exactly when every scanned text is empty; otherwise the last non-empty one |
| Lrc.ReachOfSorted | test_snippet.py:53-58 | on sorted entries, the scan reaches exactly the entries with time at most `ms` |
| SpotifyPlayer.FirstMatch | spotify_player.py:17-23 | the first device satisfying the test, or none |
| SpotifyPlayer.ChosenDevice | spotify_player.py:14-25 | a device is chosen exactly when the list is non-empty |
| SpotifyPlayer.ActiveDeviceId | spotify_player.py:14-25 | the id returned is one of the listed devices' ids; none without devices |
| SpotifyPlayer.ActiveDeviceIdTiers | spotify_player.py:16-25 | the first active unrestricted device wins; else the first unrestricted one; else the first device |
| SpotifyPlayer.PreferredDeviceWins | spotify_player.py:17-19 | an active unrestricted device at the front is chosen whatever follows |
| SpotifyPlayer.TruncDiv | spotify_player.py:55 | `int(a / b)` truncates toward zero |
| SpotifyPlayer.DeviceInfo | spotify_player.py:44-49 | the first device with the given id, or none |
| SpotifyPlayer.StartVolume | spotify_player.py:50-52 | the device's volume, 50 when unknown |
| SpotifyPlayer.FadeStep | spotify_player.py:55 | the step is at least 1 and at most max(1, volume) |
| SpotifyPlayer.FadeSchedule | spotify_player.py:55-57 | `range(vol, -1, -step)` starts at the volume, and is empty only for a negative volume |
| SpotifyPlayer.FadeScheduleShape | spotify_player.py:55 | each level is `step` below the previous, all stay within [0, vol], and the last is below `step` |
| SpotifyPlayer.FadeScheduleDecreasing | spotify_player.py:55 | the levels strictly decrease |
| SpotifyPlayer.DefaultFadeStopsShortOfZero | spotify_player.py:50-55 | with an unknown volume and 4 steps, the levels are 50, 38, 26, 14, 2, so the fade never reaches 0 |
| SpotifyPlayer.Restore | spotify_player.py:59-64 | after a pause the volume is restored; after a refused pause it is `min(20, vol)` |
| SpotifyPlayer.PauseTarget | spotify_player.py:29-32 | a pause names the device only when its id is non-empty |
| SpotifyPlayer.VolumeCalls | spotify_player.py:55-57 | one volume request per level, in order |
| SpotifyPlayer.FadeCalls | spotify_player.py:55-64 | the levels, then one pause, then the restore |
| SpotifyPlayer.FadeOutcome | spotify_player.py:41-67 | a failed `devices` request sends nothing and fails; success implies the pause was tried, and the pause is the request before the last |
| SpotifyPlayer.FadeRestores | spotify_player.py:43-65 | a fade that meets no error sends the whole volume schedule, then a pause, then restores the device's start volume after an accepted pause or `min(20, vol)` after a refusal, and reports success |
| SpotifyPlayer.StartCalls | spotify_player.py:79-87 | a start with an offset uses `max(0, offset)` and is retried once without it when refused; playback starts when either attempt succeeds |
| SpotifyPlayer.SpotifyPlayer.constructor | spotify_player.py:10-12 | no warning yet and no request sent |
| SpotifyPlayer.SpotifyPlayer.TryPause | spotify_player.py:27-39 | one pause request; the result is whether it succeeded; a refusal raises the flag, and the warning is printed only the first time |
| SpotifyPlayer.SpotifyPlayer.TryFadeOut | spotify_player.py:41-67 | the requests sent and the result are those of `FadeOutcome`; at most one warning is ever printed |
| SpotifyPlayer.SpotifyPlayer.StepVolumeDown | spotify_player.py:55-57 | the loop sends the scheduled volume requests in order, up to and including a failing one |
| SpotifyPlayer.SpotifyPlayer.PlayTrackFor | spotify_player.py:69-93 | a first `devices` request that raises leaves the call before anything is sent; without a device nothing is sent; otherwise the start requests, then a pause, then, when the pause is refused, a fade-out against the fade's own `devices` answer |
| SpotifyClient.CredsCandidates | spotify_client.py:20-24 | the explicit path (when non-empty), then the working directory, then the module's directory |
| SpotifyClient.FirstExisting | spotify_client.py:25-28 | the first existing candidate, or none exactly when none exists |
| SpotifyClient.FindCredsFile | spotify_client.py:19-28 | the loop returns the first existing candidate |
| SpotifyClient.CredsFileOrder | spotify_client.py:19-28 | the search order: explicit path, then working directory, then module directory, then nothing |
| SpotifyClient.SectionValue | spotify_client.py:37-41 | the stripped option value of the `[Spotify]` section; "" without the section |
| SpotifyClient.FileSetting | spotify_client.py:34-41 | the file's value is always stripped |
| SpotifyClient.Getenv | spotify_client.py:44-46 | `os.getenv(name, "")`: an unset variable reads like one set to "" |
| SpotifyClient.ClientId | spotify_client.py:39-50 | the client id is never empty, and a non-empty file value wins |
| SpotifyClient.ClientSecret | spotify_client.py:40-45 | the secret is empty exactly when neither the file nor the environment gives one (there is no default) |
| SpotifyClient.RedirectUri | spotify_client.py:41-52 | the redirect URI is never empty, and a non-empty file value wins |
| SpotifyClient.Pick | spotify_client.py:44-52 | precedence: a non-empty file value, else a non-empty environment value, else the default |
| SpotifyClient.LoadSpotifyCreds | spotify_client.py:31-53 | each credential follows that precedence; the client id and redirect URI are never empty |
| SpotifyClient.ChooseAuth | spotify_client.py:71-89 | PKCE exactly when id and redirect are set and there is no secret; explicit OAuth exactly when all three are set; environment OAuth otherwise |
| SpotifyClient.LoadedCredsNeverFallBack | spotify_client.py:49-89 | loaded credentials never select the environment flow: PKCE when no secret is found, explicit OAuth otherwise |
| SpotifyClient.Record | spotify_client.py:117-130 | the record: artists joined with ", ", a missing preview as "", a missing duration as 0 |
| SpotifyClient.Shape | spotify_client.py:113-130 | at most one record per item |
| SpotifyClient.ShapeKeepsAll | spotify_client.py:113-130 | items that all have tracks give one record each, in order |
| SpotifyClient.ShapeAppend | spotify_client.py:113-130 | shaping two runs of items one after the other is shaping each in turn |
| SpotifyClient.ShapeDropsMissing | spotify_client.py:114-116 | items without tracks give no records |
| SpotifyClient.PageLimit | spotify_client.py:106-107 | the page size is between 1 and 50 and never more than is still wanted |
| SpotifyClient.HarvestBound | spotify_client.py:105 | with pages that honour the limit, at most `max_items` records are collected |
| SpotifyClient.HarvestCount | spotify_client.py:105 | a request is made exactly when fewer than `max_items` records are collected |
| SpotifyClient.HarvestKeepsSent | spotify_client.py:108 | requests already sent stay at the head of the request log |
| SpotifyClient.HarvestFirstRequest | spotify_client.py:105-108 | the first request asks for the page limit at the current offset |
| SpotifyClient.HarvestLimits | spotify_client.py:106-108 | every request asks for 1 to 50 items and no more than are still wanted |
| SpotifyClient.HarvestContiguous | spotify_client.py:134 | each request starts where the previous page ended |
| SpotifyClient.HarvestStops | spotify_client.py:110-133 | paging stops only at an empty or short page, or once `max_items` records are collected |
| SpotifyClient.Harvest | spotify_client.py:105-134 | the paging specification GetLikedTracks is proved against; records and requests only accumulate, never shrink |
| SpotifyClient.SpotifyClient.constructor | spotify_client.py:59-90 | default scopes when none are given; the flow is chosen from the loaded credentials and is never the environment flow |
| SpotifyClient.SpotifyClient.AppendRecords | spotify_client.py:113-130 | the inner loop appends one record per item that has a track |
| SpotifyClient.SpotifyClient.GetLikedTracks | spotify_client.py:96-136 | the records and the requests sent are those of the paging specification |
| UpdateTestSong.Query | scripts/update_test_song.py:18-21 | `track:{title}`, followed by ` artist:{artist}` when an artist is given |
| UpdateTestSong.QueryFiltersArtistIffGiven | scripts/update_test_song.py:18-21 | the query differs from the title-only query exactly when a non-empty artist is given |
| UpdateTestSong.OrZero | scripts/update_test_song.py:38 | `int(x or 0)`: a missing number counts as 0 |
| UpdateTestSong.Entries | scripts/update_test_song.py:28 | one artist entry per artist, with id and name (missing name as "") |
| UpdateTestSong.NamedArtists | scripts/update_test_song.py:29 | only non-empty names are joined |
| UpdateTestSong.NamedArtistsAppend | scripts/update_test_song.py:29 | the name filter keeps order and distributes over concatenation |
| UpdateTestSong.ArtistFieldGrows | scripts/update_test_song.py:29 | an artist without a name adds nothing to the artist field; one with a name adds ", " and the name |
| UpdateTestSong.Shape | scripts/update_test_song.py:26-49 | the record of a hit: `canonical_title` is the canonical form of the name (trimmed, single-spaced), artists joined from non-empty names, missing numbers as 0, missing strings as "" |
| UpdateTestSong.FetchTrack | scripts/update_test_song.py:16-49 | no hit for the query gives the "no matching track" error; otherwise the record of the first hit |
| UpdateTestSong.TrackJson | scripts/update_test_song.py:33-49 | the record as a JSON object: duration, canonical title and artist stored under their keys |
| UpdateTestSong.OffsetStep | scripts/update_test_song.py:80 | `max(15000, dur // 12)` is at least 15000 |
| UpdateTestSong.OffsetsEnd | scripts/update_test_song.py:81 | the range ends at `max(1, dur - 10000)` |
| UpdateTestSong.RangeShape | scripts/update_test_song.py:81 | `range(start, stop, step)` yields `start + k*step` while below `stop`, and no more |
| UpdateTestSong.Range | scripts/update_test_song.py:81 | every value of `range(start, stop, step)` lies in [start, stop) |
| UpdateTestSong.Offsets | scripts/update_test_song.py:79-81 | one to six offsets, each in [0, `max(1, dur - 10000)`) |
| UpdateTestSong.OffsetsShape | scripts/update_test_song.py:79-81 | offsets start at 0, are spaced by the step, stay below the end, are at most 6, and none is missing before the cut |
| UpdateTestSong.OffsetsOfLongTrack | scripts/update_test_song.py:79-81 | a 210 s track gets six offsets, 17.5 s apart |
| UpdateTestSong.OffsetsOfShortTrack | scripts/update_test_song.py:79-81 | a track of at most 10 s gets the single offset 0 |
| UpdateTestSong.OffsetsJson | scripts/update_test_song.py:81 | the offsets as a JSON list of integers, in order |
| UpdateTestSong.DurationOf | scripts/update_test_song.py:78 | `int(merged.get("duration_ms") or 0)`: 0 when the key is missing, the integer otherwise |
| UpdateTestSong.MergeSampleSong | scripts/update_test_song.py:68-81 | the merge keeps every existing key the track lacks; the track's fields override; offsets are regenerated exactly when the merged duration is positive, and are kept otherwise |
| UpdateTestSong.MergeOfRecord | scripts/update_test_song.py:75-79 | for a fetched record, the merged duration is the record's, and the existing offsets are the only offsets a non-positive duration keeps |

## Left out

- I/O. This covers Spotify and spotipy requests, OAuth, the LRCLIB HTTP fetch,
  file reads and writes (`high_scores.json`, `.Creds.ini`, `sample_song.json`),
  `print`, `input`, `time.sleep`, `SystemExit` and `KeyboardInterrupt`. Their
  results are inputs to the model, and the failures they can raise are modelled
  as outcomes: a failing request index, refused pause or start, an unreadable
  file, and quit or time-out at a prompt.
- UI and concurrency: Tkinter widgets, `after()` timers, the snippet thread,
  `time.monotonic` countdowns and `_update_info_labels`. The timer firing is the
  event `TimeUp`.
- Floating point. Snippet lengths, remaining time and accuracy percentages are
  left out. `step_sleep` and the `duration` argument of `_try_fade_out` only set
  sleep times.
- Randomness. The song `random.choice` picks and the start offset from
  `random.randint` are inputs.
- `difflib.get_close_matches` in `_update_suggestions`: its result is an input
  of `UiApp.UpdateSuggestions`. `SequenceMatcher` is modelled without its
  autojunk heuristic, which only affects strings of 200 or more characters.
- Unicode. `str.lower`, `\s`, `str.isspace` and `strip()` are modelled on
  ASCII. The en and em dashes in the strip set of `canonicalize_title` are kept
  as characters.
- Lrc.ParseLrc: seconds are exact decimal milliseconds. `float(s)` and the
  `int(...)` truncation can be one millisecond lower for some fractions.
- CliGame.RunGame: the rounds are a finite input, so a session also ends when
  they run out. The loop of `run_game` (guess_cli.py:196) ends only on quit or
  when the lives run out.
- SpotifyPlayer.TruncDiv: `int(current_vol / steps)` on floats is modelled as
  integer division truncated toward zero. This is exact for the integer volumes
  and step counts involved.
- SpotifyClient.SpotifyClient.GetLikedTracks: the paging loop is specified for
  a library of at most `size` tracks, where requests at or past `size` get an
  empty page. Without such a bound the source's loop runs forever in one case
  only: full pages keep arriving whose items have no track. Those items are
  skipped and add no record, so `len(collected)` never reaches `max_items`. A
  full page of items with tracks adds `page_limit` records, so it cannot
  happen then.
- SpotifyClient.SectionValue: `configparser` parsing is not modelled. A file is
  given as its sections and lower-cased option names, and a file that fails to
  parse is not modelled. Two things `section.get` does at lookup time are left
  out too: an option missing from `[Spotify]` is looked up in the `[DEFAULT]`
  section, and a `%` in a value is interpolated (or raises
  `InterpolationSyntaxError` when it is malformed).
- SpotifyClient.LoadSpotifyCreds: `os.getenv` is a lookup in the environment
  map.
- UpdateTestSong.MergeSampleSong: the existing file is taken to hold a JSON
  object, or to be absent or unparsable, which gives `{}`. An existing file
  holding any other JSON value (an array, `null`, a number, a string or a
  boolean) would make `{**existing, ...}` raise. That case is not modelled.
- UpdateTestSong.Shape: JSON `null` values in the search hit are not modelled;
  the model only knows present and missing keys. In the source
  (scripts/update_test_song.py:28-48), a null `name` makes `canonicalize_title`
  raise. A null `uri`, album `name`, `release_date`, `isrc` or `spotify` is
  kept as `None` and written to the file as `null`. A null `album`,
  `external_ids` or `external_urls` object makes the `.get` call on it raise,
  and so does a null `artists` list or a null artist entry.
- SpotifyClient.Record: JSON `null` values in a saved track are not modelled.
  In the source (spotify_client.py:117-119), a null `name` or `uri` is kept
  as `None` in the collected record, and a null artist `name`, a null
  `artists` list or a null artist entry makes the artist join raise.
- The `debug` logging calls, `launch.py`, `preload_liked_songs` and the
  `SpotifyClient.api` property are not modelled.
