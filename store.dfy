/**
 * The in-memory user table with the two helpers every command goes through:
 * `get_user_data` (get-or-create) and `update_user_data` (set one key).
 */
module UserStore {
  import opened Records

  class Store {
    var data: map<string, Record>
    var order: seq<string>

    ghost predicate Valid()
      reads this
    {
      WellFormed(Db(data, order))
    }

    /** The table as a value. */
    function State(): Db
      reads this
    {
      Db(data, order)
    }

    /** An empty table, as the bot bootstraps it when no data file exists. */
    constructor ()
      ensures Valid() && State() == Db(map[], [])
    {
      data := map[];
      order := [];
    }

    /** Returns the record of `uid`, first storing a new one if the id is unknown. */
    method GetUserData(uid: string) returns (rec: Record)
      requires Valid()
      modifies this
      ensures Valid()
      ensures State() == Touch(old(State()), uid)
      ensures rec == Base(old(State()), uid)
    {
      TouchPreserves(State(), uid);
      if uid !in data {
        data := data[uid := NewRecord()];
        order := order + [uid];
      }
      rec := data[uid];
    }

    /** Sets one key of the record of `uid`, storing a new record first if needed. */
    method UpdateUserData(uid: string, key: Field, value: int)
      requires Valid()
      modifies this
      ensures Valid()
      ensures State() == Write(old(State()), uid, key, value)
    {
      WritePreserves(State(), uid, key, value);
      if uid !in data {
        data := data[uid := NewRecord()];
        order := order + [uid];
      }
      data := data[uid := data[uid][key := value]];
    }

    /** Reads the last check-in day without storing anything. */
    method StoredLastDaily(uid: string) returns (d: Day)
      ensures d == LastDailySeen(State(), uid)
      ensures uid in data && LastDaily in data[uid] ==> d == data[uid][LastDaily]
      ensures !(uid in data && LastDaily in data[uid]) ==> d == Epoch
    {
      d := Epoch;
      if uid in data && LastDaily in data[uid] {
        d := data[uid][LastDaily];
      }
    }
  }
}
