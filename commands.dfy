/**
 * The state-changing chat commands: check-in, admin grant, shop purchase and
 * the four wagers.
 *
 * Each command has a step function on the table value (`Db`), which states what
 * the command does, and a method on the `Store` that performs the source's
 * sequence of `get_user_data` / `update_user_data` calls and is proved to end in
 * the state the step function gives. The random draw and today's date are
 * parameters; the message sent back is reduced to a `Reply`.
 */
module Commands {
  import opened Records
  import opened Payouts
  import opened UserStore

  /** What the bot answers. */
  datatype Reply =
    | CheckedIn
    | AlreadyCheckedIn
    | Granted
    | NotAdmin
    | Bought(cost: nat)
    | NoSuchItem
    | GuessOutOfRange
    | InsufficientPoints
    | Settled(winnings: int)
      /** The stored record has no "points" key: reading it raises KeyError. */
    | MissingPoints

  datatype Outcome = Outcome(db: Db, reply: Reply)

  /** Points the daily check-in grants. */
  const DailyReward: int := 1000

  // ---------------------------------------------------------------- check-in

  /**
   * Daily check-in. Nothing happens when the stored last check-in day (the epoch
   * if there is none) is today; otherwise the user gains 1000 points and today
   * becomes the last check-in day.
   */
  function CheckInStep(db: Db, uid: string, today: Day): (r: Outcome)
    ensures StoresAtMost(db, r.db, uid)
    ensures r.reply in {CheckedIn, AlreadyCheckedIn, MissingPoints}
    ensures r.reply == AlreadyCheckedIn <==> LastDailySeen(db, uid) == today
    ensures r.reply == MissingPoints <==> LastDailySeen(db, uid) != today && PointsSeen(db, uid).None?
    ensures r.reply != CheckedIn ==> r.db == db
    ensures r.reply == CheckedIn ==>
              && PointsSeen(db, uid).Some?
              && PointsSeen(r.db, uid) == Some(PointsSeen(db, uid).value + DailyReward)
              && LastDailySeen(r.db, uid) == today
              && uid in r.db.data && LastDaily in r.db.data[uid] && r.db.data[uid][LastDaily] == today
              && OthersUnchanged(db, r.db, uid)
  {
    if LastDailySeen(db, uid) == today then Outcome(db, AlreadyCheckedIn)
    else
      var t := Touch(db, uid);
      if Points !in t.data[uid] then Outcome(t, MissingPoints)
      else
        var t' := Write(t, uid, Points, t.data[uid][Points] + DailyReward);
        var t'' := Write(t', uid, LastDaily, today);
        assert Base(t', uid) == t'.data[uid];
        assert t''.data[uid][Points] == t'.data[uid][Points];
        OthersUnchangedTrans(db, t, t', uid);
        OthersUnchangedTrans(db, t', t'', uid);
        Outcome(t'', CheckedIn)
  }

  /** A second check-in on the same day changes nothing, whatever the first did. */
  lemma CheckInTwiceSameDay(db: Db, uid: string, today: Day)
    ensures CheckInStep(CheckInStep(db, uid, today).db, uid, today).db == CheckInStep(db, uid, today).db
  {
  }

  method CheckIn(s: Store, uid: string, today: Day) returns (reply: Reply)
    requires s.Valid()
    modifies s
    ensures s.Valid()
    ensures Outcome(s.State(), reply) == CheckInStep(old(s.State()), uid, today)
  {
    ghost var db := s.State();
    var last := s.StoredLastDaily(uid);
    if last == today {
      return AlreadyCheckedIn;
    }
    var rec := s.GetUserData(uid);
    ghost var t := s.State();
    if Points !in rec {
      return MissingPoints;
    }
    var points := rec[Points] + DailyReward;
    s.UpdateUserData(uid, Points, points);
    ghost var t' := s.State();
    assert t' == Write(t, uid, Points, t.data[uid][Points] + DailyReward);
    s.UpdateUserData(uid, LastDaily, today);
    reply := CheckedIn;
  }

  // ------------------------------------------------------------------- grant

  /**
   * Admin grant: a caller without administrator rights changes nothing (not even
   * the target's record is created); otherwise the target's points change by
   * exactly `amount`, whatever its sign.
   */
  function GrantStep(db: Db, isAdmin: bool, target: string, amount: int): (r: Outcome)
    ensures StoresAtMost(db, r.db, target)
    ensures r.reply in {Granted, NotAdmin, MissingPoints}
    ensures r.reply == NotAdmin <==> !isAdmin
    ensures r.reply == MissingPoints <==> isAdmin && PointsSeen(db, target).None?
    ensures r.reply != Granted ==> r.db == db
    ensures r.reply == Granted ==>
              && PointsSeen(db, target).Some?
              && PointsSeen(r.db, target) == Some(PointsSeen(db, target).value + amount)
              && target in r.db.data
              && AgreesExcept(Base(db, target), r.db.data[target], Points)
              && OthersUnchanged(db, r.db, target)
  {
    if !isAdmin then Outcome(db, NotAdmin)
    else
      var t := Touch(db, target);
      if Points !in t.data[target] then Outcome(t, MissingPoints)
      else Outcome(Write(t, target, Points, t.data[target][Points] + amount), Granted)
  }

  method Grant(s: Store, isAdmin: bool, target: string, amount: int) returns (reply: Reply)
    requires s.Valid()
    modifies s
    ensures s.Valid()
    ensures Outcome(s.State(), reply) == GrantStep(old(s.State()), isAdmin, target, amount)
  {
    if !isAdmin {
      return NotAdmin;
    }
    var rec := s.GetUserData(target);
    if Points !in rec {
      return MissingPoints;
    }
    var points := rec[Points] + amount;
    s.UpdateUserData(target, Points, points);
    reply := Granted;
  }

  // ---------------------------------------------------------------- purchase

  /**
   * Shop purchase. The buyer's record is fetched (and so created) first; an item
   * missing from the price table, or a balance below the price, then changes
   * nothing more; otherwise the balance drops by exactly the listed price.
   */
  function PurchaseStep(db: Db, uid: string, item: string): (r: Outcome)
    ensures StoresAtMost(db, r.db, uid)
    ensures r.reply == NoSuchItem <==> item !in Catalogue
    ensures r.reply == MissingPoints <==> item in Catalogue && PointsSeen(db, uid).None?
    ensures r.reply == InsufficientPoints <==>
              item in Catalogue && PointsSeen(db, uid).Some? && PointsSeen(db, uid).value < Catalogue[item]
    ensures r.reply.Bought? <==>
              item in Catalogue && PointsSeen(db, uid).Some? && PointsSeen(db, uid).value >= Catalogue[item]
    ensures !r.reply.Bought? ==> r.db == Touch(db, uid)
    ensures r.reply.Bought? ==>
              && item in Catalogue && r.reply.cost == Catalogue[item]
              && PointsSeen(db, uid).Some? && PointsSeen(db, uid).value >= Catalogue[item]
              && PointsSeen(r.db, uid) == Some(PointsSeen(db, uid).value - Catalogue[item])
              && uid in r.db.data
              && AgreesExcept(Base(db, uid), r.db.data[uid], Points)
              && OthersUnchanged(db, r.db, uid)
    ensures r.reply.Bought? ==> PointsSeen(r.db, uid).value >= 0
  {
    var t := Touch(db, uid);
    if item !in Catalogue then Outcome(t, NoSuchItem)
    else
      var cost := Catalogue[item];
      if Points !in t.data[uid] then Outcome(t, MissingPoints)
      else if t.data[uid][Points] >= cost then
        Outcome(Write(t, uid, Points, t.data[uid][Points] - cost), Bought(cost))
      else Outcome(t, InsufficientPoints)
  }

  method Purchase(s: Store, uid: string, item: string) returns (reply: Reply)
    requires s.Valid()
    modifies s
    ensures s.Valid()
    ensures Outcome(s.State(), reply) == PurchaseStep(old(s.State()), uid, item)
  {
    var rec := s.GetUserData(uid);
    if item !in Catalogue {
      return NoSuchItem;
    }
    var cost := Catalogue[item];
    if Points !in rec {
      return MissingPoints;
    }
    if rec[Points] >= cost {
      var points := rec[Points] - cost;
      s.UpdateUserData(uid, Points, points);
      reply := Bought(cost);
    } else {
      reply := InsufficientPoints;
    }
  }

  // ------------------------------------------------------------------ wagers

  /**
   * The settlement all four wagers share: fetch (and so create) the record,
   * refuse when the balance is below the stake, else add `winnings - amount`.
   * The stake is not checked for sign.
   */
  function SettleStep(db: Db, uid: string, amount: int, winnings: int): (r: Outcome)
    ensures StoresAtMost(db, r.db, uid)
    ensures r.reply in {Settled(winnings), InsufficientPoints, MissingPoints}
    ensures r.reply == MissingPoints <==> PointsSeen(db, uid).None?
    ensures r.reply == InsufficientPoints <==> PointsSeen(db, uid).Some? && PointsSeen(db, uid).value < amount
    ensures !r.reply.Settled? ==> r.db == Touch(db, uid)
    ensures r.reply.Settled? ==>
              && PointsSeen(db, uid).Some? && amount <= PointsSeen(db, uid).value
              && PointsSeen(r.db, uid) == Some(PointsSeen(db, uid).value - amount + winnings)
              && uid in r.db.data
              && AgreesExcept(Base(db, uid), r.db.data[uid], Points)
              && OthersUnchanged(db, r.db, uid)
    ensures r.reply.Settled? && 0 <= winnings ==> PointsSeen(r.db, uid).value >= 0
  {
    var t := Touch(db, uid);
    if Points !in t.data[uid] then Outcome(t, MissingPoints)
    else if t.data[uid][Points] < amount then Outcome(t, InsufficientPoints)
    else Outcome(Write(t, uid, Points, t.data[uid][Points] + (winnings - amount)), Settled(winnings))
  }

  /**
   * Slots: a jackpot (three equal symbols) pays five times the stake, two
   * different symbols pay twice the stake, three different symbols pay nothing.
   */
  function SlotsStep(db: Db, uid: string, amount: int, a: Symbol, b: Symbol, c: Symbol): (r: Outcome)
    ensures StoresAtMost(db, r.db, uid)
    ensures r.reply in {InsufficientPoints, MissingPoints} || r.reply.Settled?
    ensures r.reply == MissingPoints <==> PointsSeen(db, uid).None?
    ensures r.reply == InsufficientPoints <==> PointsSeen(db, uid).Some? && PointsSeen(db, uid).value < amount
    ensures r.reply.Settled? <==> PointsSeen(db, uid).Some? && amount <= PointsSeen(db, uid).value
    ensures !r.reply.Settled? ==> r.db == Touch(db, uid)
    ensures r.reply.Settled? ==>
              && PointsSeen(r.db, uid) == Some(PointsSeen(db, uid).value +
                   (if a == b == c then 4 * amount
                    else if a == b || b == c || a == c then amount
                    else -amount))
              && r.reply == Settled(amount * SlotMultiplier(a, b, c))
              && uid in r.db.data
              && AgreesExcept(Base(db, uid), r.db.data[uid], Points)
              && OthersUnchanged(db, r.db, uid)
    ensures r.reply.Settled? && 0 <= amount ==> PointsSeen(r.db, uid).value >= 0
  {
    SettleStep(db, uid, amount, amount * SlotMultiplier(a, b, c))
  }

  /**
   * Odd/even: a guess equal to the drawn answer pays twice the stake; any other
   * guess, including a word that is neither answer, pays nothing.
   */
  function OddEvenStep(db: Db, uid: string, guess: string, amount: int, drawn: Parity): (r: Outcome)
    ensures StoresAtMost(db, r.db, uid)
    ensures r.reply in {InsufficientPoints, MissingPoints} || r.reply.Settled?
    ensures r.reply == MissingPoints <==> PointsSeen(db, uid).None?
    ensures r.reply == InsufficientPoints <==> PointsSeen(db, uid).Some? && PointsSeen(db, uid).value < amount
    ensures r.reply.Settled? <==> PointsSeen(db, uid).Some? && amount <= PointsSeen(db, uid).value
    ensures !r.reply.Settled? ==> r.db == Touch(db, uid)
    ensures r.reply.Settled? ==>
              && PointsSeen(r.db, uid) == Some(PointsSeen(db, uid).value + (if guess == Label(drawn) then amount else -amount))
              && r.reply == Settled(if guess == Label(drawn) then amount * 2 else 0)
              && uid in r.db.data
              && AgreesExcept(Base(db, uid), r.db.data[uid], Points)
              && OthersUnchanged(db, r.db, uid)
    ensures r.reply.Settled? && guess != Label(Odd) && guess != Label(Even) ==>
              PointsSeen(r.db, uid) == Some(PointsSeen(db, uid).value - amount)
    ensures r.reply.Settled? && 0 <= amount ==> PointsSeen(r.db, uid).value >= 0
  {
    SettleStep(db, uid, amount, if guess == Label(drawn) then amount * 2 else 0)
  }

  /**
   * Dice: a guess outside 1..6 is refused before the record is read; a guess
   * equal to the roll pays six times the stake, any other pays nothing.
   */
  function DiceStep(db: Db, uid: string, guess: int, amount: int, roll: int): (r: Outcome)
    requires 1 <= roll <= DieFaces
    ensures StoresAtMost(db, r.db, uid)
    ensures r.reply == GuessOutOfRange <==> !(1 <= guess <= DieFaces)
    ensures r.reply == GuessOutOfRange ==> r.db == db
    ensures r.reply in {GuessOutOfRange, InsufficientPoints, MissingPoints} || r.reply.Settled?
    ensures r.reply == MissingPoints <==> 1 <= guess <= DieFaces && PointsSeen(db, uid).None?
    ensures r.reply == InsufficientPoints <==>
              1 <= guess <= DieFaces && PointsSeen(db, uid).Some? && PointsSeen(db, uid).value < amount
    ensures r.reply.Settled? <==>
              1 <= guess <= DieFaces && PointsSeen(db, uid).Some? && amount <= PointsSeen(db, uid).value
    ensures 1 <= guess <= DieFaces && !r.reply.Settled? ==> r.db == Touch(db, uid)
    ensures r.reply.Settled? ==>
              && PointsSeen(r.db, uid) == Some(PointsSeen(db, uid).value + (if guess == roll then 5 * amount else -amount))
              && r.reply == Settled(if guess == roll then amount * 6 else 0)
              && uid in r.db.data
              && AgreesExcept(Base(db, uid), r.db.data[uid], Points)
              && OthersUnchanged(db, r.db, uid)
    ensures r.reply.Settled? && 0 <= amount ==> PointsSeen(r.db, uid).value >= 0
  {
    if !(1 <= guess <= DieFaces) then Outcome(db, GuessOutOfRange)
    else SettleStep(db, uid, amount, if guess == roll then amount * 6 else 0)
  }

  /**
   * Horse race: a horse outside 1..4 is refused before the record is read; the
   * winning horse pays four times the stake, any other pays nothing.
   */
  function HorseRaceStep(db: Db, uid: string, horse: int, amount: int, winner: int): (r: Outcome)
    requires 1 <= winner <= Horses
    ensures StoresAtMost(db, r.db, uid)
    ensures r.reply == GuessOutOfRange <==> !(1 <= horse <= Horses)
    ensures r.reply == GuessOutOfRange ==> r.db == db
    ensures r.reply in {GuessOutOfRange, InsufficientPoints, MissingPoints} || r.reply.Settled?
    ensures r.reply == MissingPoints <==> 1 <= horse <= Horses && PointsSeen(db, uid).None?
    ensures r.reply == InsufficientPoints <==>
              1 <= horse <= Horses && PointsSeen(db, uid).Some? && PointsSeen(db, uid).value < amount
    ensures r.reply.Settled? <==>
              1 <= horse <= Horses && PointsSeen(db, uid).Some? && amount <= PointsSeen(db, uid).value
    ensures 1 <= horse <= Horses && !r.reply.Settled? ==> r.db == Touch(db, uid)
    ensures r.reply.Settled? ==>
              && PointsSeen(r.db, uid) == Some(PointsSeen(db, uid).value + (if horse == winner then 3 * amount else -amount))
              && r.reply == Settled(if horse == winner then amount * 4 else 0)
              && uid in r.db.data
              && AgreesExcept(Base(db, uid), r.db.data[uid], Points)
              && OthersUnchanged(db, r.db, uid)
    ensures r.reply.Settled? && 0 <= amount ==> PointsSeen(r.db, uid).value >= 0
  {
    if !(1 <= horse <= Horses) then Outcome(db, GuessOutOfRange)
    else SettleStep(db, uid, amount, if horse == winner then amount * 4 else 0)
  }

  /** The read-check-update sequence the four wager commands share. */
  method Settle(s: Store, uid: string, amount: int, winnings: int) returns (reply: Reply)
    requires s.Valid()
    modifies s
    ensures s.Valid()
    ensures Outcome(s.State(), reply) == SettleStep(old(s.State()), uid, amount, winnings)
  {
    var rec := s.GetUserData(uid);
    if Points !in rec {
      return MissingPoints;
    }
    if rec[Points] < amount {
      return InsufficientPoints;
    }
    var points := rec[Points] + (winnings - amount);
    s.UpdateUserData(uid, Points, points);
    reply := Settled(winnings);
  }

  method Slots(s: Store, uid: string, amount: int, a: Symbol, b: Symbol, c: Symbol) returns (reply: Reply)
    requires s.Valid()
    modifies s
    ensures s.Valid()
    ensures Outcome(s.State(), reply) == SlotsStep(old(s.State()), uid, amount, a, b, c)
  {
    reply := Settle(s, uid, amount, amount * SlotMultiplier(a, b, c));
  }

  method OddEven(s: Store, uid: string, guess: string, amount: int, drawn: Parity) returns (reply: Reply)
    requires s.Valid()
    modifies s
    ensures s.Valid()
    ensures Outcome(s.State(), reply) == OddEvenStep(old(s.State()), uid, guess, amount, drawn)
  {
    var winnings := if guess == Label(drawn) then amount * 2 else 0;
    reply := Settle(s, uid, amount, winnings);
  }

  method Dice(s: Store, uid: string, guess: int, amount: int, roll: int) returns (reply: Reply)
    requires s.Valid()
    requires 1 <= roll <= DieFaces
    modifies s
    ensures s.Valid()
    ensures Outcome(s.State(), reply) == DiceStep(old(s.State()), uid, guess, amount, roll)
  {
    if !(1 <= guess <= DieFaces) {
      return GuessOutOfRange;
    }
    var winnings := if guess == roll then amount * 6 else 0;
    reply := Settle(s, uid, amount, winnings);
  }

  method HorseRace(s: Store, uid: string, horse: int, amount: int, winner: int) returns (reply: Reply)
    requires s.Valid()
    requires 1 <= winner <= Horses
    modifies s
    ensures s.Valid()
    ensures Outcome(s.State(), reply) == HorseRaceStep(old(s.State()), uid, horse, amount, winner)
  {
    if !(1 <= horse <= Horses) {
      return GuessOutOfRange;
    }
    var winnings := if horse == winner then amount * 4 else 0;
    reply := Settle(s, uid, amount, winnings);
  }
}
