/**
 * The persisted user table of the point bot: one record per user id, each record
 * a small dictionary with the keys "points" and "last_daily".
 *
 * The table is a value `Db`: the map from user id to record, together with the
 * order in which the ids were first stored (a JSON object keeps insertion order,
 * and that order breaks ties on the leaderboard).
 */
module Records {

  datatype Option<T> = None | Some(value: T)

  /** The two keys a record may hold. */
  datatype Field = Points | LastDaily

  /** Calendar day in Korea Standard Time, counted from 1970-01-01. */
  type Day = int

  /** The day that "1970-01-01" denotes. */
  const Epoch: Day := 0

  /**
   * A record may lack a key (the stored file is plain JSON), so it is a map
   * rather than a datatype with two fields.
   */
  type Record = map<Field, int>

  datatype Db = Db(data: map<string, Record>, order: seq<string>)

  /** The record a new user receives: 0 points, last check-in on 1970-01-01. */
  function NewRecord(): (r: Record)
    ensures Points in r && r[Points] == 0
    ensures LastDaily in r && r[LastDaily] == Epoch
  {
    map[Points := 0, LastDaily := Epoch]
  }

  /** `order` lists every stored id exactly once. */
  ghost predicate WellFormed(db: Db)
  {
    && (forall i, j :: 0 <= i < j < |db.order| ==> db.order[i] != db.order[j])
    && (forall u :: u in db.data <==> u in db.order)
  }

  /** The record `get_user_data` starts from: the stored one, or a new one. */
  function Base(db: Db, uid: string): (rec: Record)
  {
    if uid in db.data then db.data[uid] else NewRecord()
  }

  /**
   * The points a command sees after `get_user_data(uid)`; None when the stored
   * record has no "points" key (reading it raises KeyError in the bot).
   */
  function PointsSeen(db: Db, uid: string): (r: Option<int>)
    ensures uid !in db.data ==> r == Some(0)
    ensures uid in db.data ==> (r.Some? <==> Points in db.data[uid])
    ensures uid in db.data && Points in db.data[uid] ==> r == Some(db.data[uid][Points])
  {
    var rec := Base(db, uid);
    if Points in rec then Some(rec[Points]) else None
  }

  /**
   * The last check-in day as the check-in command reads it, without creating a
   * record: an unknown user or a record without "last_daily" reads as the epoch.
   */
  function LastDailySeen(db: Db, uid: string): (d: Day)
    ensures uid !in db.data ==> d == Epoch
    ensures uid in db.data && LastDaily !in db.data[uid] ==> d == Epoch
    ensures uid in db.data && LastDaily in db.data[uid] ==> d == db.data[uid][LastDaily]
  {
    if uid in db.data && LastDaily in db.data[uid] then db.data[uid][LastDaily] else Epoch
  }

  /** Every user other than `uid` is stored in `b` exactly as in `a`. */
  ghost predicate OthersUnchanged(a: Db, b: Db, uid: string)
  {
    forall u :: u != uid ==> (u in a.data <==> u in b.data) && (u in a.data ==> a.data[u] == b.data[u])
  }

  /** `r` agrees with `s` on every key other than `key`. */
  ghost predicate AgreesExcept(s: Record, r: Record, key: Field)
  {
    forall f :: f != key ==> (f in s <==> f in r) && (f in s ==> s[f] == r[f])
  }

  /** No stored user disappears and no id changes its place in `order`. */
  ghost predicate Extends(a: Db, b: Db)
  {
    a.data.Keys <= b.data.Keys && |a.order| <= |b.order| && a.order == b.order[..|a.order|]
  }

  /**
   * get_user_data: an unknown id is stored with the new record and appended to
   * the order; a known id leaves the table as it is.
   */
  function Touch(db: Db, uid: string): (r: Db)
    ensures uid in r.data && r.data[uid] == Base(db, uid)
    ensures uid in db.data ==> r == db
    ensures uid !in db.data ==> r.order == db.order + [uid]
    ensures r.data.Keys == db.data.Keys + {uid}
    ensures OthersUnchanged(db, r, uid)
  {
    if uid in db.data then db else Db(db.data[uid := NewRecord()], db.order + [uid])
  }

  /**
   * update_user_data: get-or-create the record of `uid`, then set one key of it.
   * The other key of that record and every other user stay as they were.
   */
  function Write(db: Db, uid: string, key: Field, value: int): (r: Db)
    ensures uid in r.data && key in r.data[uid] && r.data[uid][key] == value
    ensures AgreesExcept(Base(db, uid), r.data[uid], key)
    ensures r.order == Touch(db, uid).order
    ensures r.data.Keys == db.data.Keys + {uid}
    ensures OthersUnchanged(db, r, uid)
  {
    var t := Touch(db, uid);
    Db(t.data[uid := t.data[uid][key := value]], t.order)
  }

  /** Get-or-create keeps the order a list of exactly the stored ids, and only appends to it. */
  lemma TouchPreserves(db: Db, uid: string)
    requires WellFormed(db)
    ensures WellFormed(Touch(db, uid)) && Extends(db, Touch(db, uid))
  {
    if uid !in db.data {
      var r := Touch(db, uid);
      assert r.order[..|db.order|] == db.order;
      forall u ensures u in r.data <==> u in r.order {
        assert u in r.order <==> u in db.order || u == uid;
      }
    }
  }

  /** Setting a key keeps the order well formed and only appends to it. */
  lemma WritePreserves(db: Db, uid: string, key: Field, value: int)
    requires WellFormed(db)
    ensures WellFormed(Write(db, uid, key, value)) && Extends(db, Write(db, uid, key, value))
  {
    TouchPreserves(db, uid);
  }

  /** Two updates of the same user leave every other user as the first found it. */
  lemma OthersUnchangedTrans(a: Db, b: Db, c: Db, uid: string)
    requires OthersUnchanged(a, b, uid) && OthersUnchanged(b, c, uid)
    ensures OthersUnchanged(a, c, uid)
  {
  }

  /** `Extends` is transitive. */
  lemma ExtendsTrans(a: Db, b: Db, c: Db)
    requires Extends(a, b) && Extends(b, c)
    ensures Extends(a, c)
  {
    assert c.order[..|a.order|] == c.order[..|b.order|][..|a.order|];
  }

  /**
   * `b` stores the same users as `a` in the same order, or additionally `uid`
   * appended at the end if `a` did not store it.
   */
  ghost predicate StoresAtMost(a: Db, b: Db, uid: string)
  {
    || (b.data.Keys == a.data.Keys && b.order == a.order)
    || (b.data.Keys == a.data.Keys + {uid} && b.order == Touch(a, uid).order)
  }

  lemma StoresAtMostPreserves(a: Db, b: Db, uid: string)
    requires WellFormed(a) && StoresAtMost(a, b, uid)
    ensures WellFormed(b) && Extends(a, b)
  {
    if b.order != a.order {
      TouchPreserves(a, uid);
      var t := Touch(a, uid);
      assert t.data.Keys == b.data.Keys;
      assert forall u :: u in b.data <==> u in t.data;
    }
  }
}
