# gowui, verified

A Dafny model of the parts of gowui, a Go board in the browser with an engine behind it, whose correctness is
hard to see from one function at a time.

- **The rules.** `Chains.dfy` says what a chain is on any graph of points; `Board.dfy` is the mutable board with
  its flood fill and its neighbour-by-neighbour captures. `Line.dfy` and `Record.dfy` give a game as plain
  history, `PlyCaches.dfy` and `FirstSeen.dfy` the snapshots and indexes kept beside it, and `Game.dfy` the class
  that edits all of them in place. `History.dfy` says what every line of play keeps, `StoredGames.dfy` and
  `Starts.dfy` what holds of everything a game stores after any run. `Rulings.dfy` and `StoredRulings.dfy` tell the
  rules again without the definitions the other files compute with: one move by chains and liberties, a game's next
  operation, after any run, by the plies it stores.
- **SGF.** `Sgf.dfy` is the FF[4] grammar by recursion and the writer; `SgfStack.dfy` gives the iterative reader's
  stack a meaning, `SgfReader.dfy` is that reader, and `SgfRoundTrip.dfy` reads back what is written. `Coords.dfy`,
  `Text.dfy`, `SetupText.dfy`, `GameText.dfy`, `SgfLoader.dfy` and `GameRoundTrip.dfy` lift this to whole games.
  `SgfReadings.dfy`, `SgfTrees.dfy`, `SetupReadings.dfy` and `GameReadings.dfy` say what is read from texts the
  program never writes: repeated keys, soft line breaks, variations, rectangles, missing and loosely written parts.
- **The engine's board.** `Mirror.dfy` is the GTP client's mirror of a remote board it can only talk to.
- **The session.** `Session.dfy` takes each stretch of code between two awaits as one event over the boards, the
  position tokens and the one engine job in progress; `SessionRuns.dfy` proves what every interleaving keeps;
  `GameSession.dfy` is the object whose handlers are those events. `Connect.dfy` does the same for the life of
  engine connections.
- **Spaces and tabs.** `KeyLocks.dfy` is the table of reference-counted locks, `Registry.dfy`, `RegistryRuns.dfy`
  and `SpaceRegistry.dfy` the live spaces under them, `Saves.dfy` the saves of one space, `TabQueue.dfy` and
  `TabRuns.dfy` a tab's frame queue.
- **Signing in.** `Throttle.dfy`, `ThrottleWindow.dfy` and `ThrottleGrants.dfy` are the sliding-window limiter,
  `Store.dfy` the account tables and the race between sign-ins and password changes.

Classes update their fields as the source does and each method is proved equal to a function of its old state;
the properties are then lemmas about those functions over all inputs, runs and interleavings. Beside that function
a handler's contract says what becomes of each field in plain terms. A class whose coroutines wait at awaits keeps
where they wait in ghost fields.

## What is taken as given

- The engine obeys GTP: `undo` takes back the last play, and a refused command changes nothing. A failed or
  cancelled exchange ends the connection. An answer to `genmove` that is no move is modelled: the source keeps its
  mirror as it was, so from then until the board is next cleared the mirror claims nothing (`honest`).
- A komi's shortest text reads back as the same number; komi and clocks are real numbers. An engine is sent a komi
  as a text of six significant digits: `shown` is the number that text is, a parameter, the komi itself whenever
  the digits suffice.
- A game has a cap on its moves, a parameter of its setup; the program's is 2000. Only reading a saved game back
  asks that it leave room in a text, whose main line has at most 10000 nodes.
- Salts, account ids, login tokens, engines and spaces are fresh when they are made.
- The clock of the limiter never runs backwards.

## Where the code and its documentation differ

The design document's paragraph "A failed save stops the release" concludes that a release never discards changes
that were not written. The code compares and writes a snapshot, and closes the session some turns of the event
loop later (gowui/spaces.py:419-435); the session is not stopped meanwhile, and an automatic engine move or an
upload under way can change it. `Saves.AReleaseThatLoses` is such a run, and `Saves.ReleaseLosesNothingIff` says
exactly when nothing is lost in the end, over any run before the close and any writes that end after it.

## Model

| member | source | states |
|---|---|---|
| `Boards.NeighboursTouch` | gowui/board.py:57-67 | the neighbours of a point are exactly the board points one step away in a row or a column; no row wraps |
| `Chains.ChainIsClosed` | gowui/board.py:69-85 | a chain (everything same-coloured steps reach) holds its first point, has one colour, and no same-coloured step leaves it |
| `Chains.ChainIsLeast` | gowui/board.py:69-85 | every set that holds the first point and that no same-coloured step leaves holds the whole chain |
| `Chains.FloodFillIsChain` | gowui/board.py:69-85 | a set found by the flood fill inside the chain and closed under same-coloured steps is the chain |
| `Boards.Board.Flood` | gowui/board.py:73-85 | the worklist ends; what it has seen is closed, stays in every closed set, and its liberty flag is right |
| `Boards.Board.Chain` | gowui/board.py:69-85 | the points returned are the connected component, each once, and the flag says whether it has a liberty |
| `Chains.ClearKeepsOthers` | gowui/board.py:102-108 | removing whole chains of one colour leaves every other chain as it was, takes no liberty from it, and gives none to a chain of the same colour: why captures do not depend on their order |
| `Chains.TakeNext` | gowui/board.py:102-108 | one step of the neighbour-by-neighbour removal: a neighbour still there has the chain it had when the stone was placed and is removed exactly when that chain had no liberty then |
| `Chains.AllTaken` | gowui/board.py:102-108 | after the last neighbour exactly the union of the enemy chains without a liberty is gone |
| `Boards.Board.Capture` | gowui/board.py:101-108 | the in-place loop empties exactly the dead enemy chains and lists their points once each |
| `Boards.Board.Settle` | gowui/board.py:101-120 | captures first; otherwise the own chain lives, is removed and counted for the opponent, or the stone is taken back and the move refused |
| `Boards.Board.Play` | gowui/board.py:87-120 | the board after a move is the one the rules define and the list returned is what they take, each point once; a refused move changes neither stones nor prisoners |
| `Rulings.BoardRuling` | gowui/board.py:87-120 | the whole ruling on any move, by chains and liberties alone: off the board and on a stone it is refused; if an enemy chain next to the stone has no liberty it is played under either suicide setting and exactly the stones of those chains go, counted for the mover; otherwise with a liberty of its own nothing else changes, and without one it is refused as suicide or, where suicide is allowed, exactly its own chain goes, counted for the opponent |
| `Rulings.PointsAreOfTheTaken` | gowui/board.py:101-120 | the points a play answers with are the columns and rows of the stones taken, each once |
| `Chains.MoveKeepsLiberties` | gowui/board.py:87-120 | from a position where every chain has a liberty, any accepted move, captures and allowed suicide included, leads to another |
| `History.PlayConserves` | gowui/board.py:109-119 | a move adds one stone of its colour to what is on the board or held prisoner, and none of the other |
| `FirstSeen.LookupIsScan` | gowui/game.py:186-197 | `get(key, ply + 1) <= ply` finds a key exactly when a scan of plies 0 to `ply` would, later plies still indexed |
| `FirstSeen.ForgetLast` | gowui/game.py:210-221 | forgetting the last ply leaves the exact index of the plies before it |
| `FirstSeen.AppendOne` | gowui/game.py:237-238 | `setdefault` with the new ply keeps the index exact |
| `Lines.LegalStep` | gowui/game.py:164-198 | each move of a well-played line leads where the board rules say, takes what it records, and repeats nothing its ko rule forbids |
| `Lines.ExtendWellPlayed` | gowui/game.py:164-198 | a move judged legal after a line extends it to a well-played line |
| `PlyCaches.LookupAgreesWithHistory` | gowui/game.py:186-197 | the ko check on snapshots and indexes agrees with a scan of the history up to the cursor, for all three ko rules |
| `PlyCaches.VerdictFromCaches` | gowui/game.py:164-198 | the verdict from the caches is the verdict from the whole history: same reason for refusal, same board, same captures |
| `PlyCaches.TruncateKeepsCache` | gowui/game.py:210-221 | dropping plies newest first leaves exact snapshots and indexes of the plies that stay |
| `PlyCaches.AddKeepsCache` | gowui/game.py:229-241 | appending a ply keeps snapshots, prisoners and both indexes exact |
| `PlyCaches.PlayAgrees` | gowui/game.py:223-242 | playing at any cursor is playing on the plain history, with exact caches afterwards; a refused move changes nothing and gives the reason the history gives |
| `PlyCaches.UndoAgrees` | gowui/game.py:244-252 | undo is undo on the plain history and keeps the caches exact |
| `PlyCaches.BranchAgrees` | gowui/game.py:258-265 | branch is branch on the plain history and keeps the caches exact |
| `PlyCaches.RunStaysConsistent` | gowui/game.py:129-242 | after any run of plays, undos, navigations, branches and resignations, every snapshot and prisoner count is the rules folded over setup and moves, and both indexes hold exactly the least plies |
| `PlyCaches.PlayThenUndoBranches` | gowui/game.py:223-265 | a legal play followed by undo leaves exactly what branch would have left: line, snapshots, prisoners and both indexes |
| `Games.Game.FromSetup` | gowui/game.py:110-132 | a new game has its setup stones, one snapshot, and indexes of that one ply |
| `Games.Game.Attempt` | gowui/game.py:164-198 | trying a move on a copy gives the cached verdict and leaves the game alone |
| `Games.Game.ForgetFrom` | gowui/game.py:210-221 | the loop that forgets index entries does so for each dropped ply, newest first |
| `Games.Game.Truncate` | gowui/game.py:210-221 | dropping later plies in place is the truncation of the view |
| `Games.Game.Append` | gowui/game.py:229-241 | the in-place append shares the snapshot of a position seen before |
| `Games.Game.Play` | gowui/game.py:223-242 | the in-place play is the play proved to agree with the history, error included |
| `Games.Game.Undo` | gowui/game.py:244-252 | the in-place undo, and the move it returns |
| `Games.Game.Branch` | gowui/game.py:258-265 | the in-place branch |
| `Games.Game.Navigate` | gowui/game.py:254-256 | only the cursor moves, clamped to the line |
| `StoredRulings.StoneAfterAnyRun` | gowui/game.py:164-242 | after any run, a stone move the board accepts below the cap is refused for ko if and only if it gives the snapshot before the cursor's (simple ko), any snapshot up to the cursor (positional), or one of those at which the player who answers is to move (situational); otherwise it replaces every ply after the cursor: moves with the stones taken, cursor, result, snapshots and prisoners |
| `StoredRulings.OtherMovesAfterAnyRun` | gowui/game.py:164-242 | after any run, an unknown colour, a full game and a refusal of the board change nothing and give their reason; a pass below the cap is always played |
| `StoredRulings.TakingBackAfterAnyRun` | gowui/game.py:244-265 | after any run, undo leaves the plies before the last move played, at the start only clearing the result; branch leaves the plies up to the cursor and clears the result |
| `StoredRulings.NavigatingAfterAnyRun` | gowui/game.py:254-271 | after any run, navigation moves only the cursor, to the nearest ply there is; a resignation only sets the result, to a win of the other colour |
| `StoredRulings.PlayedIsRuled` | gowui/game.py:164-242 | the same ruling for a game known by its moves alone, the positions being the rules replayed |
| `StoredRulings.SetupStoneStands` | gowui/game.py:110-132 | a setup stone stands at the start unless a later one is on its point |
| `StoredRulings.NewGameStands` | gowui/game.py:110-132 | a new game: given komi, half a point with a handicap, or that of its rules; one snapshot, no prisoners, no moves, no result |
| `Starts.NewGameIs` | gowui/game.py:87-99 | which sizes and handicaps a new game accepts, and that it starts with black stones on the handicap points in their order, White first exactly when there are any |
| `History.LibertiesForEver` | gowui/game.py:164-198 | if every chain of the start has a liberty, so has every chain of every position of a well-played line |
| `Starts.HandicapStartIsAlive` | gowui/coords.py:96-116 | every chain of every handicap start has a liberty |
| `Starts.AliveInEveryRun` | gowui/game.py:87-99 | in every position a game from `Game(...)` ever stores, after any run of operations, every chain has a liberty |
| `History.StonesConserved` | gowui/game.py:210-265 | at every ply, stones of a colour on the board plus those held prisoner equal its starting stones plus its stone moves |
| `History.SimpleKoHolds` | gowui/game.py:187-189 | under simple ko no stone move recreates the position two plies before |
| `History.PositionalSuperkoHolds` | gowui/game.py:186-198 | under positional superko the position after a stone move differs from that of every earlier ply |
| `History.SituationalSuperkoHolds` | gowui/game.py:186-198 | under situational superko the pair of position and player to move after a stone move is new |
| `History.PositionalGameIsBounded` | gowui/game.py:186-198 | a positional-superko line on an n×n board has fewer than 3^(n·n) stone moves, whatever its cap on moves |
| `History.SituationalGameIsBounded` | gowui/game.py:186-198 | a situational-superko line on an n×n board has fewer than 2·3^(n·n) stone moves, whatever its cap on moves |
| `StoredGames.StoredIsReplayed` | gowui/game.py:129-242 | after any run, what is stored for a ply is the rules folded over setup and the moves before it, which are well played |
| `StoredGames.StoredAreAlive` | gowui/game.py:129-242 | after any run from a start where every chain has a liberty, so has every chain of every stored snapshot |
| `StoredGames.StoredStonesAreConserved` | gowui/game.py:129-242 | after any run, stones on a stored snapshot plus the stored prisoners of that colour equal its starting stones plus the stone moves before that ply |
| `StoredGames.StoredSimpleKo` | gowui/game.py:187-189 | after any run, no stored stone move under simple ko gives the snapshot two plies before |
| `StoredGames.StoredPositionalSuperko` | gowui/game.py:186-198 | after any run, the snapshot after a stone move differs from every earlier one |
| `StoredGames.StoredSituationalSuperko` | gowui/game.py:186-198 | after any run, the snapshot after a stone move differs from every earlier one with the same player to move |
| `StoredGames.StoredGameIsBounded` | gowui/game.py:186-198 | after any run and whatever its cap, a positional-superko game stores fewer than 3^(n·n) stone moves and a situational one fewer than 2·3^(n·n) |
| `Coords.PointReadsBack` | gowui/coords.py:55-82 | every point of a board up to 25×25 is written as two letters that read back as it |
| `Coords.MoveReadsBack` | gowui/coords.py:55-70 | every point and the pass are written as a move value that reads back as it |
| `Coords.NameIsUnique` | gowui/coords.py:55-70 | every text that names a move is the text that move is written as, except the second pass `tt` up to 19×19 |
| `Coords.HandicapPointsStandApart` | gowui/coords.py:96-116 | the handicap points are as many as asked, distinct, off all four edges, and no two are next to each other in a row or a column |
| `Coords.HandicapStandsOn` | gowui/coords.py:96-116 | which points a count takes, on the third lines up to 12 and the fourth from 13: two opposite corners, the third and fourth, the sides from six and eight, the centre for odd counts from five |
| `SetupReadings.WrittenAsLetters` | gowui/coords.py:55-82 | a point is written as the letters of its column and its row, counted from `a`, and read back |
| `SetupReadings.MoveTextNames` | gowui/coords.py:55-82 | the empty text is a pass, `tt` is one up to 19×19, two letters name the point of that column and row on the board, anything else names nothing |
| `SgfReader.Reader.Skip` | gowui/sgf.py:63-68 | skips exactly the white space |
| `SgfReader.Reader.Value` | gowui/sgf.py:125-149 | the loop over plain runs, escapes and soft line breaks reads a value as the grammar does, or fails as it does, with progress |
| `SgfReader.Reader.Values` | gowui/sgf.py:117-120 | reads every bracketed value that follows |
| `SgfReader.Reader.ReadNode` | gowui/sgf.py:107-123 | reads a node as the grammar does: lower-case letters dropped, a repeated property extended, a property without a value refused |
| `SgfReadings.PiecesReadBack` | gowui/sgf.py:125-149 | however a value is written, plain, escaped or broken by soft line breaks of one or two characters, it reads as the characters meant |
| `SgfReadings.UnclosedValueFails` | gowui/sgf.py:125-149 | a value its text does not close is an error, after a last backslash too |
| `SgfReadings.LowerCaseIsDropped` | gowui/sgf.py:107-123 | a lower-case letter anywhere in an identifier with an upper-case one does not change its key |
| `SgfReadings.OneCaseIsKept` | gowui/sgf.py:107-123 | an identifier of upper-case letters is its own key, one of lower-case letters is put in upper case |
| `SgfReadings.RepeatedKeysGather` | gowui/sgf.py:107-123 | for any properties, keys repeated and identifiers in mixed case: one entry per key, in order of first appearance, with the values of all its properties one after the other |
| `SgfReadings.ValuelessFails` | gowui/sgf.py:107-123 | an identifier without a value spoils its node |
| `SgfStack.FinishNode` | gowui/sgf.py:80-88 | what a `;` does to what is left to read, for any stack of open parentheses |
| `SgfStack.FinishOpen` | gowui/sgf.py:89-95 | what a `(` does, for any stack |
| `SgfStack.FinishClose` | gowui/sgf.py:96-98 | what a `)` does, for any stack |
| `SgfStack.FinishFails` | gowui/sgf.py:99-102 | anything else, the end of the text, or a level too deep is an error, for any stack |
| `SgfStack.FinishIsRead` | gowui/sgf.py:70-105 | with one parenthesis open the meaning of the stack is the recursive grammar |
| `SgfReader.Reader.GameTree` | gowui/sgf.py:70-105 | the iterative reader returns exactly the main line that the recursive grammar gives, and fails exactly on text that is malformed, too deep, too long or without nodes |
| `SgfRoundTrip.EscapeFirst` | gowui/sgf.py:54-55 | escaping in two passes is escaping character by character |
| `SgfRoundTrip.ValueReadsBack` | gowui/sgf.py:54-55 | any text, brackets, backslashes and line breaks included, reads back from its escaped form |
| `SgfRoundTrip.NodesReadBack` | gowui/sgf.py:47-51 | written nodes read back, whatever follows the closing parenthesis |
| `SgfRoundTrip.DumpReadsBack` | gowui/sgf.py:42-51 | `parse(dump(nodes)) == nodes` for every list of 1 to MAX_NODES nodes with distinct upper-case keys and non-empty value lists |
| `SgfTrees.TreeReadsBack` | gowui/sgf.py:70-105 | every tree of writable nodes, variations within variations, reads back from its text |
| `SgfTrees.VariationsAreDropped` | gowui/sgf.py:70-105 | a text with variations is read as the nodes along its first variations, unless those are none or more than 10000 or some variation is nested deeper than 1000 |
| `SetupText.RowsInside` | gowui/game.py:447-457 | a compressed rectangle lists exactly its points |
| `SetupReadings.RectCovers` | gowui/game.py:447-457 | a setup value is read as exactly the points between its two corners, in whatever order the corners are written, and not at all when it covers none |
| `SetupReadings.AreaIsItsPoints` | gowui/game.py:420-444 | a rectangle counts as many points as it lists |
| `SetupReadings.SetupIsWhatIsCovered` | gowui/game.py:420-444 | the setup read has a stone of a colour on a point if and only if some value of that colour's property covers the point; no point is covered by both |
| `SetupReadings.SetupIsRefusedExactly` | gowui/game.py:420-444 | no setup is read if and only if a value covers no point, the areas add up to more than the board, or both properties cover a point |
| `SetupText.SetupIsTidy` | gowui/game.py:420-444 | setup stones read from a text lie on the board, name no point twice, and have the black ones first |
| `SetupText.TidySplits` | gowui/game.py:311-336 | written by colour, such a list keeps its order |
| `SetupText.SetupReadsBack` | gowui/game.py:420-444 | setup stones written as AB and AW read back as the same list |
| `SgfLoader.ListRects` | gowui/game.py:420-444 | the listed points are counted before any rectangle is expanded; too many are refused |
| `SgfLoader.ExpandRect` | gowui/game.py:420-444 | expanding a rectangle with an owner per point lists each new point once and refuses one of both colours |
| `SgfLoader.ReadSetup` | gowui/game.py:420-444 | the two loops over AB and AW read exactly the setup the definition gives, or fail where it does |
| `SgfLoader.PlayMoves` | gowui/game.py:339-372 | the moves of the main line are played one by one on the game object until one cannot be |
| `SgfLoader.FromSgfText` | gowui/game.py:339-372 | reading a text makes a game object whose line is the one the definition gives and whose caches agree with it, or fails where it does |
| `GameReadings.BareRootReads` | gowui/game.py:339-372 | a root that says nothing of a game starts an empty 19×19 game under Japanese rules with komi 6.5, Black first |
| `GameReadings.MissingPartsDefault` | gowui/game.py:339-372 | each part of a root that is missing has its own default, whatever else the root gives |
| `GameReadings.SizesRead` | gowui/game.py:375-384 | a size is a number from 2 to 25, alone or twice with a colon between |
| `GameReadings.HandicapsRead` | gowui/game.py:405-417 | a handicap is a number up to the points of the board, a sign before it or none, a minus only of 0 |
| `GameReadings.FirstPlayersRead` | gowui/game.py:349-354 | the first player is a colour's name or initial in any case |
| `GameReadings.RulesAreReadLoosely` | gowui/game.py:387-393 | a rule set's name is read in any case, with spaces or underscores for dashes and white space around it |
| `GameReadings.AliasesRead` | gowui/game.py:36-41 | the four short names of rule sets |
| `GameReadings.MovesPlayedWhilePossible` | gowui/game.py:361-372 | the moves a main line asks for, a node's black move before its white one and up to a node with setup stones, are played in order until one cannot be: each added move answers the asked one, and the first left over is no move on the board or is illegal there |
| `GameRoundTrip.RulesReadBack` | gowui/game.py:387-393 | the name of every rule set reads back as that rule set |
| `GameRoundTrip.RootReadsBack` | gowui/game.py:311-336 | the root of a saved game reads back as the game it starts: size, setup, rules, komi, handicap, first player, names, result |
| `GameRoundTrip.MovesReadBack` | gowui/game.py:339-372 | written moves are replayed one by one: legality depends only on the moves before |
| `GameRoundTrip.SavedGameReadsBack` | gowui/game.py:311-372 | a saved game reads back as itself with the cursor at its end, captures, comments and result included |
| `GameRoundTrip.NewGameIsSaveable` | gowui/game.py:87-99 | every `Game(...)` satisfies what saving relies on |
| `GameRoundTrip.LoadedGameIsSaveable` | gowui/game.py:339-372 | and so does every game read from a text |
| `GameRoundTrip.RunStaysSaveable` | gowui/game.py:223-271 | and no operation changes that |
| `PlyCaches.CachesAreDetermined` | gowui/game.py:129-132 | two games with the same line hold the same snapshots, prisoners and indexes |
| `GameRoundTrip.AnyRunReadsBack` | gowui/game.py:311-372 | the whole round trip, for any cap on moves that leaves room in a text: after any run from a new or loaded game, `from_sgf(to_sgf(g))` is the same line with the cursor at its end and the same caches |
| `GameRoundTrip.NewGameReadsBack` | gowui/game.py:311-372 | in particular, with the cap the program has, every run from every `Game(...)` |
| `GameRoundTrip.LoadedGameReadsBack` | gowui/game.py:311-372 | and every run from every game read from a text, under the cap it was read with |
| `Gtp.CommonPrefix` | gowui/engine/gtp.py:544-550 | the moves shared, and that the next ones differ |
| `Gtp.CommonPrefixIsLongest` | gowui/engine/gtp.py:544-550 | no longer prefix is shared |
| `Gtp.SyncReaches` | gowui/engine/gtp.py:300-337 | for any engine that obeys GTP: from a board the mirror describes, or any engine at all without a mirror, the commands of a sync can only end at the position's size, komi, setup and moves, and at its rules when the engine has the command and takes them |
| `Gtp.ResetsOnlyWhenItMust` | gowui/engine/gtp.py:300-318 | a sync starts over if and only if the position differs in more than its moves, or no undos, at most three and none without `undo`, leave moves the position begins with |
| `Gtp.SyncIsShortest` | gowui/engine/gtp.py:306-318 | when no reset is needed no other choice of undos and plays is shorter |
| `Gtp.GtpEngine.Prepare` | gowui/engine/gtp.py:324-333 | after the first commands of a reset the engine has the size, the komi, no stones and, if it took them, the rules; a refused rules command is tolerated |
| `Gtp.GtpEngine.Reset` | gowui/engine/gtp.py:324-337 | a reset that completes leaves the position's size, komi, setup and, if taken, rules, and says so in the mirror; one that fails leaves no mirror |
| `Gtp.GtpEngine.UndoExtra` | gowui/engine/gtp.py:311-314 | each undo is taken off the mirror as it is taken off the engine's board |
| `Gtp.GtpEngine.Align` | gowui/engine/gtp.py:304-316 | prefix, up to three undos, or reset: afterwards the mirror is a prefix of the position |
| `Gtp.GtpEngine.PlayOut` | gowui/engine/gtp.py:317-319 | the missing moves are played and mirrored one by one |
| `Gtp.GtpEngine.Sync` | gowui/engine/gtp.py:300-322 | a sync that returns leaves the engine at the position's size, komi, setup and moves, and its rules if the engine took them, having issued exactly the commands specified, or says nothing of an engine that has answered nonsense since the board was cleared; any failure leaves no mirror |
| `Gtp.GtpEngine.GenerateMove` | gowui/engine/gtp.py:361-374 | the move is asked for right after the sync; a generated move is on both boards, a resignation on neither; an answer that is no move changes no mirror |
| `Gtp.GtpEngine.Console` | gowui/engine/gtp.py:287-297 | a console command leaves no mirror, whatever became of it |
| `Gtp.GtpEngine.Connect` | gowui/engine/gtp.py:77-99 | no mirror outlives a connection |
| `SessionRuns.RepositionKeeps` | gowui/session.py:755-763 | a fresh version names every new position, and the meaning of old versions stays |
| `SessionRuns.StepKeeps` | gowui/session.py:733-1421 | every atomic stretch of message handling and engine work keeps the invariant: versions name positions, ids are unique, every token, sink and stored analysis names what it was made for |
| `SessionRuns.MoveLandsWhereAsked` | gowui/session.py:1221-1293 | an engine answer that is played or resigned lands on the active board, which has exactly the setup, moves and cursor that were sent, with the same player to move, and changes no other board; any other answer changes nothing |
| `SessionRuns.AutomaticMoveExtends` | gowui/session.py:1221-1293 | an automatic move never discards a move |
| `SessionRuns.FreshStep` | gowui/session.py:1266-1276 | one event while a move is in flight makes it stale exactly if it is one of the listed disturbances, and a stale move never becomes fresh again |
| `SessionRuns.FreshIffUndisturbed` | gowui/session.py:1221-1293 | over any run while a move is in flight, the answer passes the token check if and only if nothing on the way disturbed it: refused messages, board moves, analysis settings and reports do not, every accepted play, undo, navigation, load, resignation, switch, duplicate, deletion, engine change or loss of the engine does, and a change of players does for an automatic move |
| `SessionRuns.AskIsFresh` | gowui/session.py:1233-1240 | a move just asked for passes its own check |
| `SessionRuns.AskSpeltOut` | gowui/session.py:1224-1242 | a move is asked for if and only if the lock is free, there is an engine and, for an automatic one, it is the engine's turn, with the token and content of the active board |
| `SessionRuns.AnswerIsJudged` | gowui/session.py:1253-1293 | an answer is stale if and only if the engine, the active board, its position, the epoch or, for an automatic move, the players are not those it was asked with; otherwise a resignation or a legal move lands, on exactly what was sent |
| `SessionRuns.AnalysisIsOfTheBoard` | gowui/session.py:174-177 | an analysis shown with a board is of the position the board has |
| `SessionRuns.ScoreIsOfTheBoard` | gowui/session.py:1396-1421 | a score is recorded only as the result of the position that was scored |
| `GameSessions.GameSession.PlayMessage` | gowui/session.py:777-791 | an illegal move changes nothing; a legal one replaces everything after the cursor of the active board's game by the move, with the stones it takes by the board rules, clears the result, names the position anew and leaves every other board as it was |
| `GameSessions.GameSession.ResignMessage` | gowui/session.py:797-802 | the active board's game gets the result for the colour named or to move, and nothing else |
| `GameSessions.GameSession.UndoMessage` | gowui/session.py:804-808 | the active board's game loses the move before its cursor and what followed, and its result; at the start only the result |
| `GameSessions.GameSession.NavigateMessage` | gowui/session.py:810-815 | only the cursor of the active board's game moves, to the nearest ply there is |
| `GameSessions.GameSession.BoardSelect` | gowui/session.py:1029-1033 | a board that exists becomes active and the epoch counts it; for any other id nothing changes |
| `GameSessions.GameSession.LoadGame` | gowui/session.py:859-867 | the active board takes the game, loses its analysis, and its position gets a name never used; no other board changes |
| `GameSessions.GameSession.BoardDuplicate` | gowui/session.py:1035-1049 | the copy stands right after its source with the source's position, version and analysis, under an id no board had, and is active; the others keep their order |
| `GameSessions.GameSession.BoardNew` | gowui/session.py:1051-1070 | one more board, the last and the active one: an empty game of the active board's size, rules and cap, with the rules' default komi |
| `GameSessions.GameSession.BoardMove` | gowui/session.py:1072-1095 | refused exactly for a board, or a board to stand after, that does not exist or is the same; otherwise the board stands right after the one named, or first, and the others keep their order |
| `GameSessions.GameSession.BoardDelete` | gowui/session.py:1104-1122 | the only board starts over under its id; another one goes, the rest in order, and if it was active the board now in its place, or the last, becomes active |
| `GameSessions.GameSession.PlayersMessage` | gowui/session.py:881-900 | a change makes an automatic move in flight fail the token check |
| `GameSessions.GameSession.BeginMove` | gowui/session.py:1224-1242 | asked for if and only if the lock is free, there is an engine and, for an automatic move, the cursor is at the end below the cap, the game is not over and an engine plays the side to move; what is sent and the token it is held to |
| `GameSessions.GameSession.TokenHolds` | gowui/session.py:1266-1270 | the comparisons of the stale check are the check of the model |
| `GameSessions.GameSession.EndMove` | gowui/session.py:1253-1293 | exactly when an answer is stale, fails or lands; one that lands adds the move to what was sent, or resigns there, and changes only the active board; any other changes no board |
| `GameSessions.GameSession.Receive` | gowui/session.py:1301-1309 | a report is stored if and only if its board still has the position it is bound to, the engine is the same and analysis is on; every analysis shown is of the position its board has |
| `GameSessions.GameSession.EndScore` | gowui/session.py:1410-1420 | a score is recorded if and only if there is one, the engine is the same and the board still has the position that was scored; only its result changes |
| `GameSessions.GameSession.EndRaw` | gowui/session.py:1370-1386 | after a console command with the same engine the active board's position has a name never used |
| `GameSessions.GameSession.WithoutEngine` | gowui/session.py:544-552 | left without an engine, no board shows an analysis and neither side nor analysis is set to use one; the players epoch counts it if either side was an engine's |
| `GameSessions.GameSession.AnalysisMessage` | gowui/session.py:873-879 | turned off, the active board shows no analysis |
| `GameSessions.GameSession.BeginAnalysis` | gowui/session.py:1331-1347 | a report consumer is bound to the position the active board has and to the current engine |
| `GameSessions.GameSession.BeginScore` | gowui/session.py:1396-1404 | what is sent to be scored is the position the active board has |
| `GameSessions.GameSession.EngineInstalled` | gowui/session.py:1541-1548 | a move in flight from an earlier engine does not pass the token check |
| `GameSessions.GameSession.EngineReleased` | gowui/session.py:1475-1479 | a move in flight does not pass the token check once its engine is released |
| `Connections.StepKeeps` | gowui/session.py:1424-1570 | every event keeps the bound of two, one owner for every open engine, and the latest lifecycle's claim to the current one |
| `Connections.BoundHolds` | gowui/session.py:1428-1432 | in every reachable state attempts, engines being closed and a connected engine number at most two |
| `Connections.EveryEngineHasAnOwner` | gowui/session.py:1424-1570 | in every reachable state every engine ever created is closed, current, being closed, or owned by its attempt |
| `Connections.AtMostTwoOpen` | gowui/session.py:1428-1432 | however connects, losses and closes overlap, at most two engine connections are open |
| `Connections.SupersededIsNeverInstalled` | gowui/session.py:1537-1540 | once a later connect, disconnect or shutdown has begun, what an attempt opens is never installed, over any run |
| `Connections.PendingMeansLatestRuns` | gowui/session.py:1424-1426 | a connect is pending exactly while the attempt of the latest lifecycle runs, and then no engine is connected |
| `Connections.ClosedStartsNothing` | gowui/session.py:1704-1728 | after shutdown has begun no event starts an attempt or installs an engine |
| `Connections.ShutdownLeavesNothingOpen` | gowui/session.py:1704-1728 | after shutdown and every task is over no engine is left open |
| `Connections.Connector.MsgConnect` | gowui/session.py:1434-1455 | refused if and only if closed, a connect is pending, the bound is reached or the policy refuses; an accepted one is the latest lifecycle, pending, with the engine there was being closed |
| `Connections.Connector.AttemptOpened` | gowui/session.py:1533-1548 | the engine is installed if and only if the attempt is of the latest lifecycle and the session is open |
| `Connections.Connector.EngineLost` | gowui/session.py:1559-1570 | only the current engine's loss counts; it is then being closed |
| `Connections.Connector.BeginClose` | gowui/session.py:1704-1713 | shutdown takes the current engine to close itself |
| `KeyLocks.OneLockPerKey` | gowui/spaces.py:274-288 | callers of one key, holding or waiting, never have different locks, and only one is inside |
| `KeyLocks.WaitsOnlyForItsKey` | gowui/spaces.py:274-288 | a caller that waits can go in if and only if nobody of its key is inside |
| `KeyLocks.LeaveKeeps` | gowui/spaces.py:284-288 | the last user of an entry drops it and nobody is left with an entry the table has lost |
| `KeyLocks.EnterKeeps` | gowui/spaces.py:279-282 | a caller joins the key's entry or makes it, and the count stays the number of callers |
| `KeyLocks.TableIsTight` | gowui/spaces.py:274-288 | the table has an entry for exactly the keys somebody holds or waits for |
| `RegistryRuns.StepKeeps` | gowui/spaces.py:274-486 | every stretch of every caller keeps the registry's invariant |
| `RegistryRuns.OneOpenSpacePerKey` | gowui/spaces.py:333-361 | two spaces of one key are never both open, and until shutdown an open space is the live one |
| `RegistryRuns.CreationIsExclusive` | gowui/spaces.py:333-361 | whoever creates a key's space is alone in it and still finds the key free when the space is ready |
| `RegistryRuns.TabsAreOnOpenSpaces` | gowui/spaces.py:295-303 | until shutdown a space with a tab is open and live |
| `RegistryRuns.ReleaseOnlyWhenSafe` | gowui/spaces.py:419-435 | a space begins to close only in shutdown, or in a release whose save stored everything and that finds no tab attached at that moment |
| `RegistryRuns.ClosedPublishesNothing` | gowui/spaces.py:333-361 | after shutdown has begun nothing is published, whatever was being created |
| `RegistryRuns.NothingLiveAfterShutdown` | gowui/spaces.py:466-486 | when every task shutdown started is over nothing is live |
| `RegistryRuns.NothingLiveEverAfter` | gowui/spaces.py:466-486 | and nothing becomes live again |
| `RegistryRuns.NoCallersNoLocks` | gowui/spaces.py:274-288 | with no caller left the lock table is empty |
| `SpaceRegistries.SpaceRegistry.BeginAttach` | gowui/spaces.py:295-318 | a tab joins the key's live space when it has fewer than 32 tabs and is refused otherwise; with none live it fails once closed or goes on to create; nothing else changes |
| `SpaceRegistries.SpaceRegistry.EndCreate` | gowui/spaces.py:348-361 | the key was free; while the registry is open a made space is published with its tab and nothing else changes, and otherwise nothing is published |
| `SpaceRegistries.SpaceRegistry.BeginRelease` | gowui/spaces.py:427-429 | a release goes on only for a space still live, without tabs and idle |
| `SpaceRegistries.SpaceRegistry.EndReleaseSave` | gowui/spaces.py:430-432 | when the save is over the space is still live without tabs; it begins to close only if everything was stored |
| `SpaceRegistries.SpaceRegistry.EndRelease` | gowui/spaces.py:432-435 | a released key is free again however the close ended |
| `Saves.StepKeeps` | gowui/spaces.py:370-397 | for the snapshot and, read and written after it, the preferences: the text last saved is the one the storage holds, a version being written is no older than any confirmed, and neither goes back |
| `Saves.SavesNeverGoBack` | gowui/spaces.py:370-397 | however saves overlap, an older version never replaces a newer one, of the snapshot or of the preferences |
| `Saves.QuietReleaseLosesNothing` | gowui/spaces.py:419-435 | a release whose session does not change from its snapshot to its close discards nothing, whatever other saves are under way |
| `Saves.ReleaseLosesNothingIff` | gowui/spaces.py:419-435 | the whole of a release, with any changes and saves before its close and any saves still running after: its own snapshot or a newer one is stored when it closes, and in the end nothing is lost if and only if, of the snapshot and of the preferences, the last write to succeed after the close wrote the text the session closed with or, with no such write, that text was the one last saved |
| `Saves.StorageHoldsLastWritten` | gowui/spaces.py:370-397 | after any run the storage holds what the last successful write wrote or, with none, what it held |
| `Saves.ClosedTextsStay` | gowui/spaces.py:419-435 | after the close no event changes the session's texts |
| `Saves.AReleaseThatLoses` | gowui/spaces.py:419-435 | a run in which a move lands while the snapshot is being written: the save reports everything stored, the space closes, and the move is gone |
| `Saves.SavedSpace.BeginSave` | gowui/spaces.py:371-390 | under the save lock: the snapshot is written first if and only if it differs from the text last saved, else the preferences if kept and different; when nothing is to be written, the storage holds the session's texts |
| `Saves.SavedSpace.EndSnapshotWrite` | gowui/spaces.py:376-390 | a snapshot write that succeeded becomes the text last saved and one that raised changes nothing of it; either way the preferences are read only now |
| `Saves.SavedSpace.EndPreferencesWrite` | gowui/spaces.py:390-397 | a preferences write that succeeded becomes the text last saved; the save reports success only if both parts are stored |
| `TabQueues.TabQueue.Put` | gowui/spaces.py:80-104 | the in-place put is the specified one, and a sender is woken exactly when it is accepted |
| `TabRuns.PutDecides` | gowui/spaces.py:80-104 | the oldest frame of a state's or analysis's kind goes first; with room the frame joins the end; a full queue folds its log lines and histories into one history and refuses instead exactly for a frame of another kind, without a history, or when more than half the places would stay taken |
| `TabRuns.FoldingPicks` | gowui/spaces.py:80-104 | folding keeps, in order, exactly the frames that are no log line and no history |
| `TabQueues.TabQueue.TryGet` | gowui/spaces.py:106-111 | frames leave oldest first |
| `TabRuns.RefusedChangesNothing` | gowui/spaces.py:80-104 | a refused put leaves the queue as it was |
| `TabRuns.PutStaysBounded` | gowui/spaces.py:80-104 | for at least three places the queue never holds more frames than it may |
| `TabRuns.PutKind` | gowui/spaces.py:80-104 | what an accepted put does to the frames of one kind: only the oldest of a coalesced kind is replaced |
| `TabRuns.PutPage` | gowui/spaces.py:80-104 | after an accepted put the page, once everything queued is sent, shows what it would have shown with the line appended, or the history |
| `TabRuns.QueueDiscipline` | gowui/spaces.py:64-221 | at every moment of every run of an attached tab: bounded; at most one state and one analysis, each the newest accepted; other frames leave in the order accepted; the page is shown the newest lines recorded, at least a history's worth or all; a sender with something to do is never left waiting |
| `TabRuns.AcksPaceStates` | gowui/spaces.py:131-143 | over any run, from any moment the tab acknowledges states and its sender has yet to pass the window, never again is more than one state unacknowledged, or than were then |
| `TabRuns.SentStatesAreCounted` | gowui/spaces.py:209-221 | the states counted as sent are those among the frames sent |
| `Throttle.LoginThrottle.PurgeTable` | gowui/server_mode.py:289-292 | the loop over a table makes every key live |
| `Throttle.LoginThrottle.TryReserve` | gowui/server_mode.py:304-321 | one attempt in place: the three limits, room in the three tables, one time stamp shared by them |
| `Throttle.LoginThrottle.Succeeded` | gowui/server_mode.py:323-332 | the pair has no stamps left, the client and the name lose the slot's own stamp where it was still there, and no other stamp changes |
| `ThrottleGrants.GrantedExactly` | gowui/server_mode.py:304-321 | an attempt is granted if and only if the stamps inside the window are below the limit for its pair, its client and its name, and each table has such a stamp of the key or of fewer keys than it may hold |
| `ThrottleGrants.OnlyTheSlotIsAdded` | gowui/server_mode.py:304-321 | inside the window a granted attempt adds one stamp to its own three keys and a refused one none; no other stamp comes or goes, whatever is purged |
| `ThrottleWindow.ReserveTracks` | gowui/server_mode.py:304-321 | a granted slot was below every limit among the slots granted inside the window that ends with it |
| `ThrottleWindow.RoomIsRoom` | gowui/server_mode.py:294-298 | room checked for one table is not lost to the purge that checking another may cause |
| `ThrottleWindow.ReserveIsBounded` | gowui/server_mode.py:304-321 | no table ever holds more than max_entries keys |
| `ThrottleWindow.SuccessHolds` | gowui/server_mode.py:323-332 | a success keeps the guarantee and starts a new round for its pair |
| `ThrottleWindow.WindowGuarantee` | gowui/server_mode.py:281-332 | over every run with a clock that never runs backwards, in every half-open interval of the window's length: at most per_client unreleased slots per client, per_account per name, per_name per pair between its successes |
| `Stores.Store.SetPassword` | gowui/store.py:243-263 | the account gets its new hash and exactly its own logins go, or nothing changes |
| `Stores.Store.RemoveUser` | gowui/store.py:265-289 | exactly the account and its logins go, or there was none and nothing changes |
| `Stores.Store.ReplaceHash` | gowui/store.py:305-311 | a cheaper hash is replaced only while it is still the account's |
| `Stores.Store.OpenLogin` | gowui/store.py:315-328 | a token is stored, to expire so many seconds from now, only while the verified hash is still the account's; of the others exactly the unexpired stay |
| `SignIns.LoginStaysGood` | gowui/store.py:243-289 | a login that a step leaves in place is still of the account's current password |
| `SignIns.LoginsAreCurrent` | gowui/store.py:235-328 | at every moment of every interleaving of sign-ins, rehashes, password changes, removals and re-added names, every stored login is of an existing account and was opened with its current password, no change lying between |

## Left out

- The browser page, apart from how its log view appends a line and replaces the log with a history; its bound
  of 400 lines is kept.
- HTTP routes, sockets, the command line, files and configuration: they appear only as the choice of what
  happens next.
- Scrypt, SQLite, SHA-256, base64, regular expressions for scrubbing, and address parsing; hashes are tokens that
  carry their password, a transaction is one step.
- Throttle.LoginThrottle.TryReserve: takes clients and names as already keyed (network prefix, first 64
  characters), and time stamps as reals, so a window lost to float rounding is not modelled.
- GameRoundTrip.AnyRunReadsBack: text is a sequence of Dafny characters, so lone surrogates are not covered; the
  size limits of uploads are left out; the two names a rule set has in the source, equal for every set, are one.
- Games.Game.FromSetup: setup stones off the board are excluded; the source has no check there, and its callers pass
  only handicap points and points read for the board's size.
- `Game.move_numbers`, `legal_moves` and `to_dict`: settled by reading one loop.
- Gtp.GtpEngine.Sync: an engine that keeps its own rules is the source's tolerated case, and nothing is said of its
  rules then. Two syncs at once on one connection are not modelled; the session's lock excludes them.
- Gtp.GtpEngine.GenerateMove: the streaming `kata-genmove_analyze` form, reports, and the analysis protocol.
- SessionRuns.StepKeeps: restoring a snapshot is the choice of a starting session; preferences, engine
  parameters, board names, status texts and closing (after which every message is ignored) have no events.
- GameSessions.GameSession.PlayMessage: the board's own game is a value here and its answer a parameter tied to
  the rules; the object that computes it is `Games.Game`.
- Connections.StepKeeps: what an engine does while it is open; timeouts are choices of when a close is over.
- RegistryRuns.ReleaseOnlyWhenSafe: says that the save reported everything stored; what may still change before
  the close is the subject of `Saves.dfy`.
- SpaceRegistries.SpaceRegistry.BeginClose: the tasks that shutdown starts are events of the model only.
- TabRuns.QueueDiscipline: exposes addresses, so no log line is withheld, and puts are of one tab.
- SignIns.LoginsAreCurrent: saved states, preferences and set-aside rows of an account.
