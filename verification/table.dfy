/** The `iirose_subscribe` table: one boolean `status` per user id, with the
    user id as primary key. It is modelled as a map from uid to status, so the
    primary-key invariant holds by construction; the three database calls the
    plugin makes (`get`, `set`, `create`) become pure functions on that map. */
module Table {

  /** One row of the table. */
  datatype Subscription = Subscription(uid: string, status: bool)

  /** The whole table, keyed by uid. */
  type Store = map<string, bool>

  /** The rows of the table as a set of records. */
  function Records(store: Store): set<Subscription> {
    set u | u in store :: Subscription(u, store[u])
  }

  /** A user who receives relayed messages. */
  predicate Subscribed(store: Store, u: string) {
    u in store && store[u]
  }

  /** Every user whose stored status is true. */
  function Subscribers(store: Store): set<string> {
    set u | u in store && store[u]
  }

  predicate NoDuplicates<T(==)>(s: seq<T>) {
    forall i, j :: 0 <= i < j < |s| ==> s[i] != s[j]
  }

  /** `get(table, uid)`: the list of rows whose primary key is `uid`. */
  function Get(store: Store, uid: string): (rows: seq<Subscription>)
    ensures |rows| <= 1
    ensures |rows| == 1 <==> uid in store
    ensures forall r :: r in rows ==> r in Records(store) && r.uid == uid
  {
    if uid in store then [Subscription(uid, store[uid])] else []
  }

  /** `set(table, uid, {status})`: an update by primary key, which touches
      no row when the key is absent. */
  function Update(store: Store, uid: string, status: bool): (r: Store)
    ensures r.Keys == store.Keys
    ensures uid in store ==> Records(r) == Records(store) - {Subscription(uid, store[uid])} + {Subscription(uid, status)}
    ensures uid !in store ==> r == store
  {
    if uid in store then store[uid := status] else store
  }

  /** `create(table, row)`: an insert, which needs a primary key not yet in
      use (the database rejects a duplicate key). */
  function Create(store: Store, row: Subscription): (r: Store)
    requires row.uid !in store
    ensures r.Keys == store.Keys + {row.uid}
    ensures Records(r) == Records(store) + {row}
  {
    store[row.uid := row.status]
  }

  /** The primary key holds: no two records of a table share a uid, and the
      records are exactly the map's entries. */
  lemma PrimaryKey(store: Store)
    ensures forall r1, r2 :: r1 in Records(store) && r2 in Records(store) && r1.uid == r2.uid ==> r1 == r2
    ensures forall u :: u in store ==> Subscription(u, store[u]) in Records(store)
    ensures forall r :: r in Records(store) ==> r.uid in store && store[r.uid] == r.status
  {
  }

  /** `get(table, {status: true})` followed by `.map(v => v.uid)`: the uids
      of all subscribers, each once, in an order the database chooses. */
  method QuerySubscribers(store: Store) returns (uids: seq<string>)
    ensures NoDuplicates(uids)
    ensures forall u :: u in uids <==> Subscribed(store, u)
    ensures |uids| == |Subscribers(store)|
  {
    uids := [];
    var rest := store.Keys;
    while rest != {}
      invariant rest <= store.Keys
      invariant NoDuplicates(uids)
      invariant forall u :: u in uids <==> Subscribed(store, u) && u !in rest
      invariant |uids| == |Subscribers(store) - rest|
      decreases rest
    {
      var k :| k in rest;
      if store[k] {
        assert Subscribers(store) - (rest - {k}) == (Subscribers(store) - rest) + {k};
        uids := uids + [k];
      } else {
        assert Subscribers(store) - (rest - {k}) == Subscribers(store) - rest;
      }
      rest := rest - {k};
    }
  }
}
