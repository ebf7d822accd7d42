# Point ledger of a community chat bot

This project models the point ledger behind a chat bot written in Python for a Discord community (`main.py`). It also proves properties of that model. Every user has one record in a single table, stored as one JSON object. The table maps the user id, a string, to a record `{"points": …, "last_daily": "YYYY-MM-DD"}`. Each chat command is a read-check-update step on that table:

- `출석` (check-in) grants a flat 1000 points at most once per calendar day in Korea Standard Time.
- `지급` (grant) lets an administrator add any integer to a user's points.
- `구매` (purchase) debits the price of an item in a fixed price table.
- `슬롯` (slots), `홀짝` (odd/even), `주사위` (dice) and `경마` (horse race) check that the user can afford the stake. They then settle `points += winnings - amount`.
- `랭킹` (leaderboard) lists the ten users with the most points.

How the model is built:

- `records.dfy` (module `Records`) defines the table as a value, `Db`. It holds the map from id to record and the order in which ids were first stored. A JSON object keeps insertion order, and Python's stable sort then uses that order to break ties on the leaderboard. A record is a `map<Field, int>`, so a stored record may lack a key, and the source has code paths for that case. This module also holds the two store helpers as functions: `Touch` is `get_user_data` and `Write` is `update_user_data`.
- `store.dfy` (module `UserStore`) is the mutable table. It is a class whose `data` and `order` fields the helpers update in place.
- `commands.dfy` (module `Commands`) gives each command twice. A step function on `Db` states what the command does. A method on the store performs the source's sequence of `get_user_data` and `update_user_data` calls and is proved to end in the state that the step function gives.
- `payouts.dfy` (module `Payouts`) holds the fixed tables: the slot symbols and payout tiers, the odd/even words, the die and horse ranges, and the shop prices.
- `ranking.dfy` (module `Ranking`) models the leaderboard as a stable descending insertion sort, cut to ten entries.
- `sessions.dfy` (module `Sessions`) runs whole sequences of commands. It proves two things about every run. First, no stored user is ever removed. Second, balances stay non-negative as long as no stake and no grant is negative.

Behaviour of the source that the model keeps:

- The stake of a wager is never checked for sign. A negative stake passes the check `points < amount`. With a losing draw it raises the balance, and with a winning draw it can push the balance below zero (`Sessions.NegativeStakeOverdraws`). An administrator may also grant a negative amount.
- A wager or a purchase that is refused still creates the record of an unknown user. The record is fetched before the check.
- A dice or horse-race guess out of range is refused before the record is read. Such a command therefore stores nothing.
- Check-in reads `last_daily` without creating a record. An unknown user, or a record without `last_daily`, counts as last checked in on 1970-01-01. So on the day numbered 0, an unknown user is told they already checked in.
- A record that lacks `"points"` makes the source raise `KeyError` when a command reads that key. The model answers `MissingPoints` and leaves the table as it was at that moment.

- Slots pays 5× the stake on three equal symbols and 2× on two different symbols; the net change is +4×, +1× or -1× the stake.
- There are no streak bonuses, no daily earnings cap, no coupons and no bounds on a bet. Balances are kept non-negative only when nobody stakes or is granted a negative amount (`Sessions.RunKeepsNoDebt`).

## Model

| member | source | states |
|---|---|---|
| `Records.NewRecord` | main.py:39 | a new record holds 0 points and last check-in 1970-01-01 |
| `Records.LastDailySeen` | main.py:60 | the last check-in day as check-in reads it: the stored value, or the epoch when the user or the key is missing |
| `Records.PointsSeen` | main.py:36-41 | the points a command sees after get-or-create: the stored value when the record has the key, 0 for an unknown user, none when the stored record lacks the key |
| `Records.Touch` | main.py:36-41 | get-or-create: an unknown id gets the new record and is appended to the order; a known id leaves the table as it is; other users are unchanged |
| `Records.Write` | main.py:43-48 | update of one key: the key holds the value afterwards; the other key of that record (or of the new record) and every other user are unchanged |
| `Records.TouchPreserves` | main.py:37-40 | get-or-create keeps the order a duplicate-free list of exactly the stored ids and only appends to it |
| `UserStore.Store.constructor` | main.py:20-22 | the table as it is when no data file exists yet: empty |
| `UserStore.Store.GetUserData` | main.py:36-41 | the in-place get-or-create ends in `Touch` of the old table and returns the stored or new record |
| `UserStore.Store.UpdateUserData` | main.py:43-48 | the in-place update ends in `Write` of the old table |
| `UserStore.Store.StoredLastDaily` | main.py:60 | reads the last check-in day without storing anything; the epoch when absent |
| `Payouts.Count` | main.py:135 | the count of a symbol is at most the length, and equals it exactly when every reel shows that symbol |
| `Payouts.SlotMultiplier` | main.py:134-143 | 5 exactly when all three symbols are equal, 2 exactly when two different symbols appear, 0 exactly when all three differ |
| `Payouts.LabelsDistinct` | main.py:155-157 | `Label` gives the two answers `random.choice` draws from, 홀 and 짝; they are different words, so a guess equals at most one drawn answer |
| `Payouts.CatalogueBounds` | main.py:108-114 | the price table `Catalogue` lists exactly the five shop items, each priced between 10000 and 60000 points |
| `Commands.CheckInStep` | main.py:55-70 | already checked in exactly when the last day read is today, and then nothing changes; otherwise points rise by exactly 1000 and `last_daily` is stored as today, other users unchanged; a record without points changes nothing |
| `Commands.CheckInTwiceSameDay` | main.py:58-69 | a second check-in on the same day leaves the table as the first left it |
| `Commands.CheckIn` | main.py:55-69 | the read, get-or-create and two updates end in the state and reply of `CheckInStep` |
| `Commands.GrantStep` | main.py:78-85 | a non-administrator changes nothing and creates no record; for an administrator the target (created if absent) gains exactly `amount`, with no sign check |
| `Commands.Grant` | main.py:78-85 | the in-place grant ends in the state and reply of `GrantStep` |
| `Commands.PurchaseStep` | main.py:107-125 | refused as no such item exactly when the item is not in the table, and as insufficient exactly when points are below the price; bought exactly when the item is listed and the points reach its price; a refusal only creates the record; a purchase lowers points by exactly the listed price, leaves them non-negative and changes nothing else |
| `Commands.Purchase` | main.py:107-125 | the in-place purchase ends in the state and reply of `PurchaseStep` |
| `Commands.SettleStep` | main.py:130-146 | refused exactly when points are below the stake (only get-or-create happens); otherwise points become `points - amount + winnings`, nothing else changes, and the result is non-negative when the winnings are |
| `Commands.Settle` | main.py:130-146 | the in-place read-check-update ends in the state and reply of `SettleStep` |
| `Commands.SlotsStep` | main.py:128-147 | refused (only get-or-create) exactly when points are missing or below the stake, settled otherwise; a settled spin changes points by +4×stake on three equal symbols, +1×stake on two different symbols and -stake on three different ones, reports the payout 5×, 2× or 0× the stake, and changes nothing else; with a stake of at least 0 the balance stays non-negative |
| `Commands.Slots` | main.py:128-147 | the in-place slots command ends in the state and reply of `SlotsStep` |
| `Commands.OddEvenStep` | main.py:150-165 | refused (only get-or-create) exactly when points are missing or below the stake, settled otherwise; a settled bet gains the stake when the guess equals the drawn word and loses it otherwise, reports the payout 2× or 0× the stake, and changes nothing else; a word that is neither answer always loses; a stake of at least 0 keeps the balance non-negative |
| `Commands.OddEven` | main.py:150-165 | the in-place odd/even command ends in the state and reply of `OddEvenStep` |
| `Commands.DiceStep` | main.py:168-186 | a guess outside 1..6 is refused and stores nothing; an in-range guess is refused (only get-or-create) exactly when points are missing or below the stake, and settled otherwise; a settled bet gains 5×stake on a hit and loses the stake on a miss, reports the payout 6× or 0× the stake, and changes nothing else; a stake of at least 0 keeps the balance non-negative |
| `Commands.Dice` | main.py:168-186 | the in-place dice command ends in the state and reply of `DiceStep` |
| `Commands.HorseRaceStep` | main.py:189-207 | a horse outside 1..4 is refused and stores nothing; an in-range horse is refused (only get-or-create) exactly when points are missing or below the stake, and settled otherwise; a settled bet gains 3×stake when the horse wins and loses the stake otherwise, reports the payout 4× or 0× the stake, and changes nothing else; a stake of at least 0 keeps the balance non-negative |
| `Commands.HorseRace` | main.py:189-207 | the in-place horse-race command ends in the state and reply of `HorseRaceStep` |
| `Ranking.Score` | main.py:90 | the sort key `.get('points', 0)`: the stored points, or 0 when the record has none |
| `Ranking.ScoreOfStored` | main.py:90 | a stored user sorts by the points the commands see, and as 0 exactly where the commands raise `KeyError` |
| `Ranking.Insert` | main.py:90 | the insertion step returns the old entries plus the new one, as a multiset |
| `Ranking.InsertSorted` | main.py:90 | inserting into a list in non-increasing order of points keeps it in that order |
| `Ranking.SortDesc` | main.py:90 | the sort returns a permutation of its input in non-increasing order of points (a missing "points" counts as 0) |
| `Ranking.SortDescStable` | main.py:90 | the sort is stable: entries with equal points keep their relative order |
| `Ranking.SortDescDistinct` | main.py:90 | sorting a list with distinct user ids keeps the ids distinct |
| `Ranking.Items` | main.py:90 | `data.items()`: one entry per stored id, in insertion order, each with its stored record |
| `Ranking.Leaderboard` | main.py:89-91 | at most ten entries (fewer only when fewer users are stored), in non-increasing order of points, a prefix of the sorted items |
| `Ranking.LeaderboardEntriesStored` | main.py:89-91 | every board entry is a stored user with its stored record, and no user appears twice |
| `Ranking.LeaderboardTopTen` | main.py:89-91 | a stored user is missing from the board only when the board is full, and then has no more points than the tenth entry |
| `Ranking.LeaderboardStable` | main.py:89-91 | among users with equal points the board lists the first ones in insertion order |
| `Sessions.ExecPreserves` | main.py:36-48 | every command keeps the order a duplicate-free list of the stored ids and removes no user |
| `Sessions.RunPreserves` | main.py:36-48 | records are created lazily and never deleted: after any run of commands, every user stored before is still stored, and the order was only appended to |
| `Sessions.ExecKeepsNoDebt` | main.py:55-207 | one check-in, purchase, grant or wager with non-negative amounts leaves every stored balance non-negative |
| `Sessions.RunKeepsNoDebt` | main.py:55-207 | any run of such commands keeps every stored balance non-negative |
| `Sessions.NegativeStakeOverdraws` | main.py:131-146 | a stake of -100 passes the balance check of a new user: a jackpot leaves -400 points and a loss leaves +100 |

## Left out

- Discord plumbing is not modelled: the bot object, intents, `on_ready`, sending messages, mentions and `bot.run` with its token. The reply text is reduced to a `Reply` value, and the administrator permission is a boolean parameter.
- `get_display_name` is not modelled. It asks the guild for member names and only formats the leaderboard message.
- The leaderboard message indexes `info['points']` directly. A record without points that reaches the top ten therefore makes that message raise `KeyError`, although the sort itself treats the record as 0. The message is not modelled; the board is.
- File persistence is not modelled: `load_data`, `save_data`, the JSON encoding and file errors. The table lives in memory. In the source, `get_user_data` reloads the file and rewrites it only when it creates a record, and `update_user_data` reloads and rewrites it every time; the model's table is what those calls leave on disk. An existing data file's contents are what every command loads; the model starts from the empty table that main.py:20-22 writes when there is none.
- `random.choice` and `random.randint` are not modelled. The drawn symbols, word, die face and winning horse are parameters, and the die face and horse are constrained to their ranges. Probabilities are not modelled.
- The clock and date handling are not modelled: `datetime.now` in Korea Standard Time, `strftime` and `strptime`. A date is an integer day number, with 0 for 1970-01-01. A malformed stored date, which makes `strptime` raise, is not represented.
- Values of other JSON types are not represented. The source stores ints and date strings; the model gives every record value the type `int`.
- `포인트` (balance query, main.py:73-75) is only `get_user_data` plus a message. Its effect on the table is `UserStore.Store.GetUserData`.
- `상점` (shop listing, main.py:94-104) only formats the price table that `구매` uses (`Payouts.Catalogue`).
- Interleaving of commands is not modelled: each command runs as one atomic step. The source has no await between its reads and writes.
