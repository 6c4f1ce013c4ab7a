/** The two in-memory tables of the callback endpoint, as values:
    `pending_transactions` (user -> key -> recognised fields, the
    transactions awaiting 确认 or 取消) and `processed_messages` (MsgId ->
    first-seen time, the duplicate-delivery guard). Keys are integer
    microsecond readings of the clock; their order is the order of the
    ISO-8601 strings the source uses. The endpoint's methods update these
    tables in place and are specified by the functions here. */
module Workspace {
  import opened Wrappers
  import opened PyValue

  type Bucket = map<int, Dict>
  type Pending = map<Value, Bucket>

  /** A user with no pending transaction has no bucket. */
  predicate NoEmptyBuckets(p: Pending) {
    forall u :: u in p ==> p[u] != map[]
  }

  /** `get_pending_transaction`: the fields stored under `(user, key)`. */
  function Entry(p: Pending, user: Value, key: int): Option<Dict> {
    if user in p && key in p[user] then Some(p[user][key]) else None
  }

  /** `save_pending_transaction`: the bucket created when absent, the fields
      stored under `key`, overwriting an entry with the same key. */
  function Saved(p: Pending, user: Value, key: int, data: Dict): (r: Pending)
    ensures Entry(r, user, key) == Some(data)
    ensures forall u, k :: u != user || k != key ==> Entry(r, u, k) == Entry(p, u, k)
    ensures r.Keys == p.Keys + {user}
    ensures NoEmptyBuckets(p) ==> NoEmptyBuckets(r)
  {
    p[user := (if user in p then p[user] else map[])[key := data]]
  }

  /** Saving again under the same key replaces the entry. */
  lemma SavedAgainReplaces(p: Pending, user: Value, key: int, first: Dict, second: Dict)
    ensures Saved(Saved(p, user, key, first), user, key, second) == Saved(p, user, key, second)
  {
    var bucket := if user in p then p[user] else map[];
    assert bucket[key := first][key := second] == bucket[key := second];
    assert Saved(p, user, key, first) == p[user := bucket[key := first]];
  }

  /** The `del` of `(user, key)` and of the bucket it leaves empty. */
  function Removed(p: Pending, user: Value, key: int): (r: Pending)
    ensures Entry(r, user, key).None?
    ensures forall u, k :: u != user || k != key ==> Entry(r, u, k) == Entry(p, u, k)
    ensures r.Keys <= p.Keys && forall u :: u in p && u != user ==> u in r && r[u] == p[u]
    ensures NoEmptyBuckets(p) ==> NoEmptyBuckets(r)
  {
    if user in p && key in p[user] then
      var bucket := p[user] - {key};
      if bucket == map[] then
        assert forall k :: k in p[user] ==> k == key || k in bucket;
        p - {user}
      else p[user := bucket]
    else p
  }

  /** `max(keys)`: the largest of a non-empty set of keys. */
  ghost function MaxKey(keys: set<int>): (m: int)
    requires exists k :: k in keys
    ensures m in keys && forall k :: k in keys ==> k <= m
    decreases |keys|
  {
    var x :| x in keys;
    if forall k :: k in keys ==> k == x then x
    else
      var rest := keys - {x};
      var y :| y in keys && y != x;
      assert y in rest;
      var m := MaxKey(rest);
      assert forall k :: k in keys ==> k == x || k in rest;
      if x <= m then m else x
  }

  /** The key confirm and cancel act on: the largest key of the user's
      bucket, when the user has a pending transaction. */
  ghost function Latest(p: Pending, user: Value): (r: Option<int>)
    ensures r.Some? <==> exists k :: Entry(p, user, k).Some?
    ensures r.Some? ==> Entry(p, user, r.value).Some?
    ensures r.Some? ==> forall k :: Entry(p, user, k).Some? ==> k <= r.value
  {
    if user in p && exists k :: k in p[user] then
      var m := MaxKey(p[user].Keys);
      assert Entry(p, user, m).Some?;
      Some(m)
    else
      assert forall k :: Entry(p, user, k).Some? ==> k in p[user];
      None
  }

  /** The largest key of a user's bucket is the latest. */
  lemma LatestIsLargest(p: Pending, user: Value, key: int)
    requires user in p && key in p[user] && forall k :: k in p[user] ==> k <= key
    ensures Latest(p, user) == Some(key)
  {
    assert Entry(p, user, key).Some?;
  }

  /** A user whose bucket has no largest key has no latest transaction. */
  lemma NoLargestNoLatest(p: Pending, user: Value)
    requires !(user in p && exists key :: key in p[user] && forall k :: k in p[user] ==> k <= key)
    ensures Latest(p, user).None?
  {
  }

  /** Saving under a fresh key and then removing that key restores the
      table: a cancel right after an image undoes the staging. */
  lemma SaveThenRemove(p: Pending, user: Value, key: int, data: Dict)
    requires NoEmptyBuckets(p) && Entry(p, user, key).None?
    ensures Removed(Saved(p, user, key, data), user, key) == p
  {
    if user in p {
      SaveThenRemoveInBucket(p, user, key, data);
    } else {
      var saved := Saved(p, user, key, data);
      assert saved[user] == map[key := data];
      assert saved[user] - {key} == map[];
      assert saved - {user} == p;
    }
  }

  lemma SaveThenRemoveInBucket(p: Pending, user: Value, key: int, data: Dict)
    requires user in p && p[user] != map[] && key !in p[user]
    ensures Removed(Saved(p, user, key, data), user, key) == p
  {
    var saved := Saved(p, user, key, data);
    assert saved[user] - {key} == p[user];
    assert saved[user := p[user]] == p;
  }

  /** A transaction saved later than every pending one of its user is the one
      the next confirm or cancel acts on. */
  lemma SavedIsLatest(p: Pending, user: Value, key: int, data: Dict)
    requires forall k :: Entry(p, user, k).Some? ==> k < key
    ensures Latest(Saved(p, user, key, data), user) == Some(key)
  {
    var r := Saved(p, user, key, data);
    var m := Latest(r, user).value;
    assert Entry(r, user, key).Some?;
    assert m == key || Entry(p, user, m).Some?;
  }

  /** Removing the latest transaction leaves only older ones: repeated
      cancels walk back through the user's pending transactions. */
  lemma RemoveLatestLeavesOlder(p: Pending, user: Value)
    requires Latest(p, user).Some?
    ensures var latest := Latest(p, user).value;
            var r := Removed(p, user, latest);
            Latest(r, user).Some? ==> Latest(r, user).value < latest
  {
    var latest := Latest(p, user).value;
    var r := Removed(p, user, latest);
    if Latest(r, user).Some? {
      var next := Latest(r, user).value;
      assert Entry(p, user, next).Some?;
    }
  }

  // ---- The duplicate-delivery guard ----

  type Seen = map<Value, int>

  /** 24 hours in microseconds. */
  const Retention: int := 86_400_000_000

  /** The clean-up after recording: every id first seen more than 24 hours
      before `now` is dropped. */
  function Swept(seen: Seen, now: int): (r: Seen)
    ensures forall id :: id in r <==> id in seen && now - seen[id] <= Retention
    ensures forall id :: id in r ==> r[id] == seen[id]
  {
    map id | id in seen && now - seen[id] <= Retention :: seen[id]
  }

  /** A new MsgId recorded at `now`, then the sweep. */
  function Remembered(seen: Seen, id: Value, now: int): (r: Seen)
    ensures id in r && r[id] == now
  {
    Swept(seen[id := now], now)
  }

  /** A delivery retried within 24 hours of the first is recognised as a
      duplicate, however many other messages were recorded in between. */
  lemma {:induction false} RetryWithinRetentionIsDuplicate(seen: Seen, id: Value, first: int, others: seq<(Value, int)>, now: int)
    requires forall i :: 0 <= i < |others| ==> others[i].0 != id && first <= others[i].1 <= now
    requires now - first <= Retention
    ensures id in RecordAll(Remembered(seen, id, first), others)
    decreases |others|
  {
    if others != [] {
      RetryWithinRetentionIsDuplicate(seen, id, first, others[..|others| - 1], now);
      RecordAllKeepsTime(Remembered(seen, id, first), others[..|others| - 1], id);
    }
  }

  /** The table after recording each `(id, time)` in turn. */
  function RecordAll(seen: Seen, records: seq<(Value, int)>): Seen
    decreases |records|
  {
    if records == [] then seen
    else
      var last := records[|records| - 1];
      Remembered(RecordAll(seen, records[..|records| - 1]), last.0, last.1)
  }

  /** Recording other ids never changes an id's first-seen time. */
  lemma {:induction false} RecordAllKeepsTime(seen: Seen, records: seq<(Value, int)>, id: Value)
    requires forall i :: 0 <= i < |records| ==> records[i].0 != id
    ensures id in RecordAll(seen, records) ==> id in seen && RecordAll(seen, records)[id] == seen[id]
    decreases |records|
  {
    if records != [] {
      RecordAllKeepsTime(seen, records[..|records| - 1], id);
    }
  }

  /** Sweeping twice at the same time is sweeping once. */
  lemma SweptIdempotent(seen: Seen, now: int)
    ensures Swept(Swept(seen, now), now) == Swept(seen, now)
  {
  }
}
