# paji: a verified model of a text-protocol card-game client

The repository holds two versions of one poker bot, both written as a single
`Player` class in Python 2:

- `semifinal/source/game.py`, the later version. It divides with true
  division (`from __future__ import division`), tracks alive players and
  phases, steals blinds and keeps a preflop call budget.
- `preliminary/source/game.py`, the earlier version. Its division is Python 2
  integer division, and it uses a simpler preflop rule built on "mad" and
  "rich" opponents.

Each client registers with the game server and then reads newline-delimited
text. A keyword line (`seat`, `blind`, `hold`, `inquire`, `flop`, `turn`,
`river`, `showdown`, `pot-win`, `notify`) opens a message. The next keyword
line closes it, and the message body is handed to `handle_<keyword>`. An
`inquire` message is answered with exactly one command: `fold`, `check`,
`call` or `raise <n>`. The line `game-over` ends the session.

The model has seven modules:

- `Wire`: the text layer. It covers stripping, splitting and word splitting,
  integer parsing and printing, and the line parsers of every handler. It
  also holds the keyword table, the commands and `int(0.1 * jetton)`. The
  client's exceptions become faults (`Fault`, `Result`, `Outcome`).
- `Framer`: the receive loop of `run`, which is identical in both files. It
  is a function from the reads to the dispatched `(kind, body)` events, an
  imperative `Frame` method proved equal to that function, and lemmas about
  the toggle.
- `Cards`: the 13×13 preflop table in hundredths and `evaluate_two`. Both are
  identical in the two files.
- `Ledger`: the table and counter bookkeeping both clients share. It covers
  seats and the position index, per-player action counters, blinds, status
  lines, the outer bet, the fold counts and `is_rich`.
- `SemifinalLines` and `SemifinalQueries`, then the class
  `Semifinal.Player`: the later client's message validation and handler
  loops, its profile queries and decision rules, and the player object.
- `PreliminaryLines` and `PreliminaryQueries`, then the class
  `Preliminary.Player`: the same for the earlier client.

The player objects keep the source's fields as class fields. The handlers are
methods with field-level `modifies` frames (`modifies this`seats, …`): each
names only the fields its source function assigns. Each handler's `ensures` gives the new state in
terms of specification functions over the old state, and the lemmas about
those functions state what the source promises. Every command written to
the socket is appended to the field `sent`. The foreign hand evaluators are
function-valued parameters: `evaluate` in the preliminary client, and
`Oracle.strength` and `Oracle.equity` in the semifinal one.

Float thresholds are exact integer comparisons:

- The table and all scores `evaluate_two` returns are in hundredths: `0.74`
  is `74`.
- The equity estimate is in thousandths, as the source quantises it at
  `semifinal/source/game.py:617`.
- A ratio test becomes a cross-multiplication: `raise/total < 0.05` is
  `20 * raise < total`, and `fold/round > 1 - 0.15` is
  `20 * fold > 17 * round`.
- The product `p_all_flop` is an exact fraction `num / den`.

## Model

| member | source | states |
|---|---|---|
| Wire.StripShape | semifinal/source/game.py:118 | `strip` keeps one contiguous piece of the line. Everything cut off on either side is a stripped character, and the piece neither starts nor ends with one. |
| Wire.JoinSplit | semifinal/source/game.py:117 | Splitting on a separator loses nothing: joining the pieces with the separator gives back the text. |
| Wire.Words | semifinal/source/game.py:181 | Every word of `split()` is non-empty and holds no whitespace. |
| Wire.ParseShow | semifinal/source/game.py:654 | Parsing the decimal text of any integer gives that integer back. This is the round trip of the amount in a `raise` command. |
| Wire.ParseSeat | semifinal/source/game.py:145-148 | A seat line parses exactly when the words after its last `:` begin with three integers. The result is those three numbers. |
| Wire.ParseBlind | semifinal/source/game.py:169 | A blind line parses if and only if it splits on `": "` into exactly two integers. The result is that pid and bet. |
| Wire.SpaceAfterSign | semifinal/source/game.py:169 | As in CPython 2, whitespace between a sign and the digits is skipped: a minus sign, whitespace and digits read as minus the digits' value, and a plus sign as their value. |
| Wire.BlindSpacedSign | semifinal/source/game.py:168-171 | The blind line `1001: - 20` parses to player 1001 with a blind of -20, which handle_blind then charges. |
| Wire.ParseStatus | semifinal/source/game.py:181-183 | A status line parses exactly when it has at least five words, the first four integers. The result is those four numbers and the fifth word as the action. |
| Wire.ParsePot | semifinal/source/game.py:209 | A parsed pot is the integer value of the last word of the line. |
| Wire.EachAt | semifinal/source/game.py:174-175 | Parsing every line gives the parse of line `i` at position `i`, for every `i`. |
| Wire.KeywordsNameHandlers | semifinal/source/game.py:14 | A line names a handler exactly when it is that handler's keyword. `game-over` is not a keyword. |
| Wire.Tenth | semifinal/source/game.py:654 | `int(0.1 * j)` truncates toward zero: `10 * r <= j < 10 * r + 10` for `j >= 0`, and the mirror bound below zero. |
| Framer.FrameRead | semifinal/source/game.py:115-133 | One pass of the outer loop feeds the stripped lines of one read, in order, through the toggle. It equals the function `FeedLines`. |
| Framer.Frame | semifinal/source/game.py:108-134 | The whole receive loop, from the initial `flag`/`single_msg`/`over_flag`, dispatches exactly the events of `FeedChunks` and ends in its state. |
| Framer.ClassifyCases | semifinal/source/game.py:118-133 | After stripping `/`, space and newline, a line is blank, `game-over`, a keyword or content. Content is a non-empty, non-keyword line. |
| Framer.TextsGather | semifinal/source/game.py:132-133 | While a message is open, content lines only join its body, in order, and dispatch nothing. |
| Framer.OneMessage | semifinal/source/game.py:116-133 | With no message open, an opening keyword, any content lines and a closing keyword dispatch exactly one event. The closing keyword names it, and its body is the leftover body followed by the content lines in order. The framer ends closed with an empty body. |
| Framer.GameOverStops | semifinal/source/game.py:121-123 | After `game-over`, neither the rest of that read nor any later read dispatches anything or changes the state. |
| Framer.BodiesConserveContent | semifinal/source/game.py:132-133 | No content line is lost or duplicated. The bodies of the dispatched events, followed by the pending body, are the old body followed by every content line in order. |
| Framer.EventsCloseAlternateKeywords | semifinal/source/game.py:124-131 | Events are named by every second keyword line, starting with the first keyword when no message was open, so each dispatch is named by its closing keyword. |
| Framer.ReadsAreLineBoundaries | semifinal/source/game.py:134 | Because the text buffer is reset after each read, framing several reads equals framing the concatenation of their line lists. |
| Framer.SplitReadsAreTwoLines | semifinal/source/game.py:134 | A line that arrives split over two reads becomes two content lines. For example, `pot-` and `win` are not the keyword `pot-win`. |
| Framer.FeedAppend | semifinal/source/game.py:117-133 | Feeding two runs of lines one after the other equals feeding their concatenation. The events are the concatenation too. |
| Framer.InquiresPrefix | semifinal/source/game.py:127 | A prefix of the events holds no more inquire messages than all of them. |
| Cards.EvaluateTwo | semifinal/source/game.py:281-289 | The score exists if and only if both hole cards carry a rank the table knows. Same suits read `card_array[min][max]` and different suits read `card_array[max][min]`. |
| Cards.EvaluateTwoSymmetric | semifinal/source/game.py:281-289 | Swapping the two hole cards gives the same score or the same fault. |
| Cards.SuitedNoWorse | semifinal/source/game.py:18-31 | Two ranks score at least as much suited as offsuit, and every score lies in 0.32 to 0.85. |
| Cards.UpperDominates | semifinal/source/game.py:18-31 | Above the diagonal (suited), no table entry is below its mirror (offsuit). |
| Cards.TableBounds | semifinal/source/game.py:18-31 | Every table entry lies between 0.32 and 0.85. |
| Cards.PocketAces | semifinal/source/game.py:281-289 | A♠A♥ reads 0.85. |
| Ledger.Note | semifinal/source/game.py:191-192 | A recognised action adds exactly one to its own counter and one to `total` and leaves the other counters alone. This keeps `total` equal to the sum of the five counters. |
| Ledger.SitsAt | semifinal/source/game.py:144-151 | The seat appended for line `i` has that line's pid, jetton and money and a bet of 0. |
| Ledger.PidsAre | semifinal/source/game.py:161 | The players of a seat message are exactly the pids of its lines. |
| Ledger.EnrolAt | semifinal/source/game.py:152-159 | A counter is created only for a pid not seen before. An existing counter keeps its value. |
| Ledger.EnrolConsistent | semifinal/source/game.py:152-153 | Enrolling new players with zero counters keeps every player's `total` equal to the sum of their counters. |
| Ledger.PlaceShape | semifinal/source/game.py:150-151 | After appending, the position index covers the old players plus the new ones, and `seats[pos[p]].pid == p` for every indexed `p`. |
| Ledger.PlaceIndexes | semifinal/source/game.py:150-151 | Appending a seat message keeps the position index pointing at each player's own seat. A pid seated twice points at its last seat. |
| Ledger.IndexesInjective | semifinal/source/game.py:150 | Two different indexed players have two different seats. |
| Ledger.SeatedLines | semifinal/source/game.py:168-171 | A blind body, or the status lines of a preliminary inquire, is accepted exactly when every line parses and names a seated player. The kept lines are the parsed ones, in order. |
| Ledger.BlindLoop | semifinal/source/game.py:168-171 | The blind loop computes `Blinds`: each line sets its player's bet and takes it from that player's jetton. |
| Ledger.BlindsCharge | semifinal/source/game.py:170-171 | After a blind message, each player's jetton is lower by the sum of their blinds and their bet is their last blind. Nothing else of the seat changes. |
| Ledger.PostedShowsLast | semifinal/source/game.py:184-187 | After an inquire, each seat shows the jetton, money, bet and action of its player's last status line, or is unchanged if the player has none. |
| Ledger.MaxBetBounds | semifinal/source/game.py:188 | The new outer bet is at least the old one and every bet of the batch, and it is one of them. |
| Ledger.TallyConsistent | semifinal/source/game.py:190-192 | Counting a batch keeps every `total` equal to the sum of the five counters. |
| Ledger.TallyCounts | semifinal/source/game.py:190-192 | After a batch, each counter has grown by exactly the number of its player's lines with that action, and `total` by the number of recognised lines. |
| Ledger.NotedKeeps | semifinal/source/game.py:246-248 | The notify preflop counting, which also bumps on unrecognised keys, keeps every counter at most `total`. |
| Ledger.AggressorsAre | semifinal/source/game.py:206-207 | `enemy` is exactly the set of pids with a raise, call or all_in line in this batch. |
| Ledger.FoldersAre | semifinal/source/game.py:202-203 | The players a batch removes from `alive` are exactly those with a fold line. |
| Ledger.FoldBumpsCount | semifinal/source/game.py:202-204 | A player's fold count grows by one exactly when they were alive and folded in the batch, and is unchanged otherwise. |
| Ledger.IsRich | semifinal/source/game.py:298-305 | `is_rich` holds exactly when own money is above 40 or no enemy's jetton exceeds own jetton minus 40. It holds when there are no enemies. |
| SemifinalLines.SeatLines | semifinal/source/game.py:143-159 | A seat body is accepted exactly when every line parses and, if there is a line, the phase slot exists. The accepted lines are the parses in order. |
| SemifinalLines.InquireLines | semifinal/source/game.py:180-204 | Status lines are accepted exactly when each parses, names a seated player and, for a fold by an alive player, has a fold slot. |
| SemifinalLines.InquireBody | semifinal/source/game.py:178-209 | An empty inquire fails with a missing line. An inquire is accepted if and only if its status lines are accepted and its pot is readable, and then it gives those lines and the pot from the last line. |
| SemifinalLines.NotifyLines | semifinal/source/game.py:237-252 | Notify lines are accepted exactly when each parses and every counter it bumps exists. An unknown action before the flop is a fault, as in the source's KeyError. |
| SemifinalLines.TightNeedsRaiser | semifinal/source/game.py:197-200 | The tight flag is raised only by another player's raise in phase 0 whose preflop raise rate, read after that raise was counted, is below 1/20. |
| SemifinalLines.SeatLoop | semifinal/source/game.py:143-161 | The seat loop appends the seats and places them in the index. It enrols the three counter maps for new players only, and `alive` becomes exactly the seated pids. |
| SemifinalLines.InquireLine | semifinal/source/game.py:181-207 | One status line writes its seat, raises the outer bet to its bet, and counts the action both times and preflop while there are no board cards. It may set the tight flag, and a fold strikes the player and bumps their fold count. |
| SemifinalLines.InquireLoop | semifinal/source/game.py:180-207 | The inquire loop computes the seats, outer bet, both counter maps, tight flag, `alive`, fold counts and `enemy` of the whole batch, and keeps the bookkeeping invariant. |
| SemifinalLines.NotifyLoop | semifinal/source/game.py:237-252 | The notify loop counts the recognised actions and the preflop ones, and strikes and fold-counts the folders. It touches no seat, bet, pot or enemy. |
| SemifinalLines.SeatKeeps | semifinal/source/game.py:143-161 | A seat message keeps the invariant: indexed seats, every indexed player with counters and a fold entry, and consistent counters. |
| SemifinalLines.ClearKeeps | semifinal/source/game.py:257-272 | Emptying the table keeps the invariant. |
| SemifinalLines.InquireKeeps | semifinal/source/game.py:180-207 | An inquire batch keeps the invariant. |
| SemifinalLines.NoticeKeeps | semifinal/source/game.py:237-252 | A notify batch keeps the invariant. |
| SemifinalQueries.GetMadness | semifinal/source/game.py:291-296 | The loop returns exactly the players with ten or more actions of which at least 19 in 20 are aggressive. |
| SemifinalQueries.MadNeedsAggression | semifinal/source/game.py:294 | A player who folded or checked in more than one action in twenty is not mad. |
| SemifinalQueries.Cut | semifinal/source/game.py:310-313 | The scan stops at the own seat: every seat before the cut belongs to someone else. |
| SemifinalQueries.Scan | semifinal/source/game.py:310-325 | From seat `i` up to the own seat, the scan is true if and only if some alive player there is timid. It faults if and only if an alive player is reached with no fold slot for the phase. |
| SemifinalQueries.Chicken | semifinal/source/game.py:307-346 | The chicken tests are false whenever `round < 40`. When true, they have found an alive other player. |
| SemifinalQueries.CheckChicken | semifinal/source/game.py:307-346 | The loops of `check_chicken` and `check_chicken_strict` compute `Chicken`. The shared fold count is summed `phase + 1` times. |
| SemifinalQueries.StrictImpliesLoose | semifinal/source/game.py:307-346 | Whenever the strict test finds a timid player, the loose test does too. |
| SemifinalQueries.OddsAreProbability | semifinal/source/game.py:411-418 | The all-fold odds `p_all_flop` lie between 0 and 1. |
| SemifinalQueries.AllFoldOdds | semifinal/source/game.py:411-418 | The loop over `alive` computes the odds. They are 0 if an alive opponent has no preflop action and 1 if there is no alive opponent. |
| SemifinalQueries.PreflopChoice | semifinal/source/game.py:420-454 | The preflop rules: it steals with `raise 40` exactly when there was no tight raise, the odds are at least 0.8 and there was no steal yet, and it sets the steal flag. It checks a free call. With a call owed, a score from 0.74 (or from 0.61 or 0.55 when the strict chicken test is false) calls if and only if the budget plus `call_bet` is within the tier cap of 1000, 400 or 200, and otherwise folds; a call grows the budget by exactly `call_bet`. The budget never passes 1000. A strict chicken below 0.74, or a score below 0.55, folds. |
| SemifinalQueries.PreflopDecide | semifinal/source/game.py:393-454 | The body of `action_two` before the send computes `Preflop`. The data comes from the current state, and the faults are raised in the source's order. |
| SemifinalQueries.ChickenIdle | semifinal/source/game.py:429-436 | The strict chicken test is only consulted below 0.74 with a non-zero call. |
| SemifinalQueries.StealOnce | semifinal/source/game.py:420-423 | After a steal, which sets the steal flag, no later preflop decision in the same hand raises, and the flag stays set. |
| SemifinalQueries.CallsMonotone | semifinal/source/game.py:429-454 | If a score calls, every higher score calls too, with the same budget. |
| SemifinalQueries.PostflopChoice | semifinal/source/game.py:650-658 | The postflop rules: check when the own bet matches. Otherwise raise a tenth of the jetton if and only if the score is at least 0.85 and `ev` is at least 0.9; else call if and only if the score is at least 0.7; else fold. |
| SemifinalQueries.PostflopMonotone | semifinal/source/game.py:650-658 | A higher score and equity never give a weaker command. |
| Semifinal.Player.constructor | semifinal/source/game.py:36-63 | The fresh player has an empty table, no counters, round and phase 0, cleared flags and budget, and nothing sent. |
| Semifinal.Player.Send | semifinal/source/game.py:78-90 | A command is appended to what was sent. |
| Semifinal.Player.HandleSeat | semifinal/source/game.py:138-162 | A bad seat body fails and changes nothing. An accepted one appends the seats, points each player at its new seat, gives counters and a fold slot row to players without them, makes the alive set exactly the seated players and increases `round` by one. |
| Semifinal.Player.Seat | semifinal/source/game.py:141-162 | Seats are appended and indexed. The counters and fold entries are created for new players only, `alive` is exactly the seated players, and `round` increases by one. |
| Semifinal.Player.HandleBlind | semifinal/source/game.py:167-171 | A bad blind body fails and changes nothing. An accepted one leaves the seats exactly as the blind lines charge them. |
| Semifinal.Player.Blind | semifinal/source/game.py:168-171 | The seats become `Blinds` of the old seats. |
| Semifinal.Player.HandleHold | semifinal/source/game.py:173-175 | The hole cards gain one word tuple per line. |
| Semifinal.Player.HandleFlop | semifinal/source/game.py:213-216 | The board gains one tuple per line, and the phase advances by one. |
| Semifinal.Player.HandleStreet | semifinal/source/game.py:219-226 | Turn and river add the first line's card and advance the phase. An empty body is an IndexError that changes nothing. |
| Semifinal.Player.Clear | semifinal/source/game.py:257-272 | `pot-win` resets the cards, board, seats, index, pot, outer bet, flags, budget, `alive` and phase. The counters, the fold counts, `enemy` and `round` are unchanged. |
| Semifinal.Player.Absorb | semifinal/source/game.py:179-207 | The fields become the inquire batch's specification values, the pot becomes the given total, and `enemy` is exactly the batch's aggressors. |
| Semifinal.Player.HandleInquire | semifinal/source/game.py:178-211 | A bad body fails with nothing changed or sent. Otherwise the fields become the batch's values as in Absorb, the pot is the last token, and the answer is the one the decision rules give on that new state: its command is sent and the steal flag and budget follow it, or on a fault nothing is sent. |
| Semifinal.Player.Respond | semifinal/source/game.py:179-211 | After a parsed body the fields become the batch's values, the pot is the total, and the decision rules on the new state name the one command sent and the new steal flag and budget. A fault sends nothing. |
| Semifinal.Player.HandleNotify | semifinal/source/game.py:236-255 | A bad body fails with nothing changed. An accepted one counts the recognised actions, before the flop also in the preflop counters, removes the folders from the alive set and bumps their fold slot. |
| Semifinal.Player.Notice | semifinal/source/game.py:237-252 | The counters, preflop counters (before the flop only), `alive` and fold counts become the batch's values. |
| Semifinal.Player.Act | semifinal/source/game.py:660-665 | `action` sends the one command the current state chooses, before the flop by the preflop rules and after it by the postflop rules. The steal flag and budget follow. A fault changes nothing. |
| Semifinal.Player.ActionTwo | semifinal/source/game.py:393-454 | `action_two` sends the preflop choice and updates the steal flag and budget, or fails with nothing changed. |
| Semifinal.Player.ActionOther | semifinal/source/game.py:595-658 | `action_other` sends the postflop choice on the evaluators' answers, or fails with nothing changed. |
| Semifinal.Player.Dispatch | semifinal/source/game.py:126-127 | Only an inquire message sends. It sends exactly one command when it passes and none when it fails. |
| Semifinal.Player.Update | semifinal/source/game.py:126-127 | Every handler except the inquire one keeps the player consistent and sends nothing. |
| Semifinal.Player.Run | semifinal/source/game.py:106-134 | The registration line (with `need_notify`) is sent first. The events handled are those of the framer. A session without a fault sends exactly one command per inquire. |
| Semifinal.Player.Handle | semifinal/source/game.py:112-134 | The messages are handled in order until a fault. Earlier output is kept, and one command is added per inquire handled. |
| PreliminaryLines.SeatLines | preliminary/source/game.py:127-132 | A seat body is accepted exactly when every line parses. A rejected one reports the fault of a line that failed. |
| PreliminaryLines.InquireBody | preliminary/source/game.py:153-173 | An empty inquire fails with a missing line. An inquire with accepted lines and a readable pot is accepted, and the pot is its last token. |
| PreliminaryLines.NotifyLines | preliminary/source/game.py:197-204 | Notify lines are accepted exactly when each parses and a recognised action has a counter. Unrecognised actions are ignored. |
| PreliminaryLines.SeatLoop | preliminary/source/game.py:127-137 | The seat loop appends and indexes the seats and enrols counters for new players only. It has no `alive` or fold tracking. |
| PreliminaryLines.InquireLine | preliminary/source/game.py:156-172 | One status line writes its seat, raises the outer bet, counts a recognised action, and adds an aggressor to `enemy`. |
| PreliminaryLines.InquireLoop | preliminary/source/game.py:154-172 | The inquire loop computes the batch's seats, outer bet, counters and `enemy`, keeps the invariant, and every enemy is seated. |
| PreliminaryLines.NotifyLoop | preliminary/source/game.py:197-204 | The notify loop counts the recognised actions and nothing else. |
| PreliminaryLines.SeatKeeps | preliminary/source/game.py:127-139 | A seat message keeps the invariant: indexed seats, every indexed player with counters, and consistent counters. |
| PreliminaryLines.InquireKeeps | preliminary/source/game.py:155-167 | An inquire batch keeps the invariant. |
| PreliminaryLines.NoticeKeeps | preliminary/source/game.py:197-204 | A notify batch keeps the invariant. |
| PreliminaryLines.AggressorsSeated | preliminary/source/game.py:171-172 | The enemies of an accepted batch are seated players. |
| PreliminaryQueries.GetMadness | preliminary/source/game.py:238-243 | The loop returns exactly the players whose integer quotient `(all_in + raise + call) / total` reaches 0.95, with ten or more actions. |
| PreliminaryQueries.MadMeansNeverPassive | preliminary/source/game.py:241 | Under integer division, a player is mad if and only if they have ten or more actions and never folded or checked. |
| PreliminaryQueries.MadStricterThanTrueDivision | preliminary/source/game.py:241 | Every player mad here is mad under the later client's true division, but not conversely. With 19 aggressive actions and one check in 20, only the later client calls the player mad. |
| PreliminaryQueries.PreflopChoice | preliminary/source/game.py:262-294 | The preflop rules: from 0.74 it raises a tenth of the jetton if and only if `2 * bet < money + jetton`, and checks otherwise. Below that, it checks when the own bet matches. Against an all-mad table it calls from 0.64, and from 0.61 if and only if `is_rich`. Otherwise it calls from 0.64 if and only if `call_bet < 0.8 * (jetton + money)`, and from 0.61 if and only if `call_bet < 0.5 * (jetton + money)`. Everything else folds. |
| PreliminaryQueries.CallsMonotone | preliminary/source/game.py:268-294 | Below 0.74, a higher score never gives a weaker command. |
| PreliminaryQueries.MadTableCallsMore | preliminary/source/game.py:272-287 | From 0.64, a hand that calls against a sane table also calls against a mad one. |
| PreliminaryQueries.RichIdle | preliminary/source/game.py:276 | `is_rich` matters only for a score in [0.61, 0.64) against a mad table with a call to make. |
| PreliminaryQueries.Preflop | preliminary/source/game.py:254-260 | The decision fails if and only if the hole cards are unreadable or the player is not seated, with that fault. Otherwise it is the preflop choice on the own seat, the madness of all enemies and `is_rich`. |
| PreliminaryQueries.PreflopDecide | preliminary/source/game.py:254-294 | The body of `action_two` before the send computes `Preflop`. `is_rich` is run only where the source calls it. |
| PreliminaryQueries.PostflopChoice | preliminary/source/game.py:348-356 | Check when the own bet matches. Otherwise raise a tenth of the jetton if and only if the score is at least 0.85, call if and only if it is in [0.7, 0.85), and fold if and only if it is below 0.7. |
| PreliminaryQueries.PostflopMonotone | preliminary/source/game.py:348-356 | A higher score never gives a weaker command. |
| PreliminaryQueries.Postflop | preliminary/source/game.py:344-356 | Unconvertible cards fail first, then a missing own seat. Otherwise the decision is the postflop choice on the evaluator's score. |
| Preliminary.Player.constructor | preliminary/source/game.py:32-65 | The fresh player has an empty table, no counters or enemies, round 0, and nothing sent. |
| Preliminary.Player.Send | preliminary/source/game.py:67-78 | A command is appended to what was sent. |
| Preliminary.Player.HandleSeat | preliminary/source/game.py:126-139 | A bad seat body fails and changes nothing. An accepted one appends the seats, points each player at its new seat, gives counters to players without them and increases `round` by one. |
| Preliminary.Player.Seat | preliminary/source/game.py:127-139 | Seats are appended and indexed, counters are created for new players only, and `round` increases by one. |
| Preliminary.Player.HandleBlind | preliminary/source/game.py:142-146 | A bad blind body fails and changes nothing. An accepted one leaves the seats exactly as the blind lines charge them. |
| Preliminary.Player.Blind | preliminary/source/game.py:143-146 | The seats become `Blinds` of the old seats. |
| Preliminary.Player.HandleHold | preliminary/source/game.py:148-151 | The hole cards gain one word tuple per line. |
| Preliminary.Player.HandleFlop | preliminary/source/game.py:176-179 | The board gains one tuple per line. There is no phase. |
| Preliminary.Player.HandleStreet | preliminary/source/game.py:181-187 | Turn and river add the first line's card. An empty body is an IndexError that changes nothing. |
| Preliminary.Player.Clear | preliminary/source/game.py:209-216 | `pot-win` resets the cards, board, seats, index, pot and outer bet. The counters, `enemy` and `round` are unchanged. |
| Preliminary.Player.Absorb | preliminary/source/game.py:154-172 | The seats, outer bet and counters become the batch's values, and `enemy` is exactly the batch's aggressors. |
| Preliminary.Player.HandleInquire | preliminary/source/game.py:153-174 | A bad body fails with nothing changed or sent. Otherwise the seats, outer bet, counters and `enemy` become the batch's values, the pot is the last token, and the command sent is the one the decision rules give on that new state; on a fault nothing is sent. |
| Preliminary.Player.Respond | preliminary/source/game.py:154-174 | After a parsed body the seats, outer bet, counters and `enemy` become the batch's values, the pot is the total, and the command sent is the one the decision rules give on the new state. A fault sends nothing. |
| Preliminary.Player.HandleNotify | preliminary/source/game.py:196-207 | A bad body fails with nothing changed. An accepted one counts the recognised actions of the status lines, and the counters are the only field it may change. |
| Preliminary.Player.Notice | preliminary/source/game.py:197-204 | The counters become the batch's tally. |
| Preliminary.Player.Act | preliminary/source/game.py:358-362 | `action` sends exactly the command of `action_two` before the flop and `action_other` after it. A fault sends nothing. |
| Preliminary.Player.ActionTwo | preliminary/source/game.py:254-294 | `action_two` sends the `Preflop` decision of the current state, or fails with nothing sent. |
| Preliminary.Player.ActionOther | preliminary/source/game.py:344-356 | `action_other` sends the `Postflop` decision on the evaluator's score, or fails with nothing sent. |
| Preliminary.Player.Dispatch | preliminary/source/game.py:114-115 | Only an inquire message sends. It sends exactly one command when it passes and none when it fails. |
| Preliminary.Player.Run | preliminary/source/game.py:94-122 | The registration line is sent first. The events handled are those of the framer. A session without a fault sends exactly one command per inquire. |
| Preliminary.Player.Handle | preliminary/source/game.py:100-122 | The messages are handled in order until a fault. One command is added per inquire handled. |

## Behaviour the code decides

- **Framing.** Keyword lines act as an open/close toggle. The first keyword
  only opens a message. The next one dispatches the body gathered since to
  the handler of that second, closing keyword. A run of keyword lines
  therefore pairs up, so that `seat … seat` dispatches one `seat` message.
- **Split lines.** The receive buffer is reset after every read
  (`semifinal/source/game.py:134`). A line split across two reads is
  therefore two lines (`Framer.SplitReadsAreTwoLines`).
- **Notify in the preliminary client.** `notify` updates only the action
  counters. The alive set and the fold counts exist in the semifinal client
  only.
- **Madness in the preliminary client.** The 0.95 madness threshold is
  computed with integer division. There it means "never folded or checked"
  (`PreliminaryQueries.MadMeansNeverPassive`).

## Left out

- Sockets are not modelled: bind, the connect-retry loop, `recv`, shutdown
  and close. The input is the sequence of received chunks. The output is the
  field `sent`.
- The `send` retry loop with `sleep` is not modelled. A send always
  succeeds.
- `HandEvaluator.evaluate_hand` and the `cpokereval` Monte-Carlo equity are
  foreign libraries. They are total function parameters, along with their
  card-string conversions. The equity arrives already quantised to
  thousandths.
- The debug `print` in the preliminary `evaluate_two`, `main` and `argv`
  are not modelled.
- The unused fields are not modelled: the tuning parameters `flop_line` …
  `d`, `base_ratio_to_raise`, `other_flop_total_call`, `cache_msg`, the
  preliminary `score` and `evaluate_flag`.
- The commented-out strategies are not modelled, because they are dead code.
- In the semifinal client, `get_madness` and `is_rich` are defined but never
  called by `action_two`. The model defines `SemifinalQueries.GetMadness`,
  and the shared `Ledger.IsRich` is used only by the preliminary client.
- `fold_actions` is four references to one dictionary. It is a single map
  `folds`, and indexing slot `phase` faults when `phase >= 4`.
- Semifinal.Player.HandleSeat and the other handlers check the whole message
  before changing anything. The source updates the state line by line and
  raises part-way through. After an exception the session is over, so no
  later command differs, but the half-updated state is not modelled.
- Semifinal.Player.Run and Preliminary.Player.Run frame all reads first and
  then handle the messages in order. The source interleaves the two. The
  framer's state never depends on a handler, so the messages and their order
  are the same.
- Semifinal.Player.Handle and Preliminary.Player.Handle give only an upper
  bound on what was sent after a fault, not the exact count.
- Wire.Tenth is the exact truncated tenth. The double product `0.1 * jetton`
  has the same integer part for every stack of the game, but its rounding
  is not modelled.
- SemifinalQueries.AllFoldOdds computes `p_all_flop` as an exact fraction. A
  float product that lands on 0.8 after rounding is not reproduced.
- SemifinalQueries.PreflopChoice compares `p_all_flop >= 0.8` as
  `5 * num >= 4 * den` on the exact fraction, for the same reason.
- SemifinalQueries.PostflopChoice takes the hand strength as an exact real
  and compares it with the exact decimals 0.85 and 0.7. The source compares
  doubles. A strength equal to the double nearest 0.85, which lies just
  below 0.85, raises there when `ev` allows it, and calls here. A strength
  equal to the double nearest 0.7 likewise calls there and folds here.
- PreliminaryQueries.PostflopChoice compares the exact real strength with
  0.85 and 0.7 in the same way, and differs from the source in the same way
  at those two doubles.
