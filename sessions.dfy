/**
 * Sequences of commands run against the user table, and what holds after any
 * number of them: no stored user is ever removed, and balances stay
 * non-negative as long as nobody stakes or is granted a negative amount.
 */
module Sessions {
  import opened Records
  import opened Payouts
  import opened Commands

  /** One state-changing command with its draw or date already fixed. */
  datatype Command =
    | CheckInCmd(uid: string, today: Day)
    | GrantCmd(isAdmin: bool, target: string, amount: int)
    | PurchaseCmd(uid: string, item: string)
    | SlotsCmd(uid: string, amount: int, a: Symbol, b: Symbol, c: Symbol)
    | OddEvenCmd(uid: string, word: string, amount: int, drawn: Parity)
    | DiceCmd(uid: string, face: int, amount: int, roll: int)
    | HorseRaceCmd(uid: string, horse: int, amount: int, winner: int)

  /** The drawn die face and winning horse lie in the ranges `randint` draws from. */
  predicate Drawable(c: Command)
  {
    match c
    case DiceCmd(_, _, _, roll) => 1 <= roll <= DieFaces
    case HorseRaceCmd(_, _, _, winner) => 1 <= winner <= Horses
    case _ => true
  }

  function Exec(db: Db, c: Command): (r: Outcome)
    requires Drawable(c)
  {
    match c
    case CheckInCmd(uid, today) => CheckInStep(db, uid, today)
    case GrantCmd(isAdmin, target, amount) => GrantStep(db, isAdmin, target, amount)
    case PurchaseCmd(uid, item) => PurchaseStep(db, uid, item)
    case SlotsCmd(uid, amount, a, b, x) => SlotsStep(db, uid, amount, a, b, x)
    case OddEvenCmd(uid, guess, amount, drawn) => OddEvenStep(db, uid, guess, amount, drawn)
    case DiceCmd(uid, guess, amount, roll) => DiceStep(db, uid, guess, amount, roll)
    case HorseRaceCmd(uid, horse, amount, winner) => HorseRaceStep(db, uid, horse, amount, winner)
  }

  /** The table after running `cs` in order. */
  function Run(db: Db, cs: seq<Command>): (r: Db)
    requires forall i :: 0 <= i < |cs| ==> Drawable(cs[i])
    decreases |cs|
  {
    if cs == [] then db else Run(Exec(db, cs[0]).db, cs[1..])
  }

  /** Every command keeps the order a list of exactly the stored ids, and removes nobody. */
  lemma ExecPreserves(db: Db, c: Command)
    requires WellFormed(db) && Drawable(c)
    ensures WellFormed(Exec(db, c).db) && Extends(db, Exec(db, c).db)
  {
    var uid := match c
      case CheckInCmd(u, _) => u
      case GrantCmd(_, u, _) => u
      case PurchaseCmd(u, _) => u
      case SlotsCmd(u, _, _, _, _) => u
      case OddEvenCmd(u, _, _, _) => u
      case DiceCmd(u, _, _, _) => u
      case HorseRaceCmd(u, _, _, _) => u;
    StoresAtMostPreserves(db, Exec(db, c).db, uid);
  }

  /**
   * Records are created lazily and never deleted: after any run every user
   * stored before is still stored, and the insertion order was only appended to.
   */
  lemma {:induction false} RunPreserves(db: Db, cs: seq<Command>)
    requires WellFormed(db)
    requires forall i :: 0 <= i < |cs| ==> Drawable(cs[i])
    ensures WellFormed(Run(db, cs)) && Extends(db, Run(db, cs))
    decreases |cs|
  {
    if cs != [] {
      var next := Exec(db, cs[0]).db;
      ExecPreserves(db, cs[0]);
      RunPreserves(next, cs[1..]);
      ExtendsTrans(db, next, Run(next, cs[1..]));
    }
  }

  /** No stored balance is negative (a record without points has none to check). */
  ghost predicate NoDebt(db: Db)
  {
    forall u :: u in db.data && Points in db.data[u] ==> db.data[u][Points] >= 0
  }

  /** The command stakes, and has granted, no negative amount. */
  predicate NonNegativeAmounts(c: Command)
  {
    match c
    case GrantCmd(isAdmin, _, amount) => !isAdmin || amount >= 0
    case SlotsCmd(_, amount, _, _, _) => amount >= 0
    case OddEvenCmd(_, _, amount, _) => amount >= 0
    case DiceCmd(_, _, amount, _) => amount >= 0
    case HorseRaceCmd(_, _, amount, _) => amount >= 0
    case _ => true
  }

  /** A command that changed only `uid`, leaving it a non-negative balance, keeps `NoDebt`. */
  lemma NoDebtAfterUpdate(db: Db, r: Db, uid: string)
    requires NoDebt(db) && OthersUnchanged(db, r, uid)
    requires uid in r.data && (Points in r.data[uid] ==> r.data[uid][Points] >= 0)
    ensures NoDebt(r)
  {
  }

  /** One command with non-negative amounts leaves no balance negative. */
  lemma ExecKeepsNoDebt(db: Db, c: Command)
    requires NoDebt(db) && Drawable(c) && NonNegativeAmounts(c)
    ensures NoDebt(Exec(db, c).db)
  {
    var r := Exec(db, c);
    var uid := match c
      case CheckInCmd(u, _) => u
      case GrantCmd(_, u, _) => u
      case PurchaseCmd(u, _) => u
      case SlotsCmd(u, _, _, _, _) => u
      case OddEvenCmd(u, _, _, _) => u
      case DiceCmd(u, _, _, _) => u
      case HorseRaceCmd(u, _, _, _) => u;
    if r.db != db && r.db != Touch(db, uid) {
      assert PointsSeen(db, uid).Some? && PointsSeen(db, uid).value >= 0;
      NoDebtAfterUpdate(db, r.db, uid);
    } else if r.db == Touch(db, uid) {
      NoDebtAfterUpdate(db, r.db, uid);
    }
  }

  /**
   * Balances never go negative through check-ins, purchases, grants of
   * non-negative amounts and wagers with non-negative stakes.
   */
  lemma {:induction false} RunKeepsNoDebt(db: Db, cs: seq<Command>)
    requires NoDebt(db)
    requires forall i :: 0 <= i < |cs| ==> Drawable(cs[i]) && NonNegativeAmounts(cs[i])
    ensures NoDebt(Run(db, cs))
    decreases |cs|
  {
    if cs != [] {
      ExecKeepsNoDebt(db, cs[0]);
      RunKeepsNoDebt(Exec(db, cs[0]).db, cs[1..]);
    }
  }

  /**
   * The stake is not checked for sign: a new user who stakes -100 on slots and
   * hits the jackpot ends with -400 points, and a loss with that stake gains 100.
   */
  lemma NegativeStakeOverdraws(uid: string)
    ensures PointsSeen(Exec(Db(map[], []), SlotsCmd(uid, -100, Bell, Bell, Bell)).db, uid) == Some(-400)
    ensures PointsSeen(Exec(Db(map[], []), SlotsCmd(uid, -100, Cherry, Lemon, Bell)).db, uid) == Some(100)
  {
  }
}
