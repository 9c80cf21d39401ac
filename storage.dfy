/**
 * `MemStorage` from server/storage.ts: two id-keyed maps with an
 * auto-increment counter each. A JavaScript `Map` iterates in insertion
 * order, so each map is modelled by its entries together with its key
 * order; `Valid` ties the two and the counter together.
 */
module Storage {
  import opened Wrappers
  import opened Schema

  /** `keys` lists the domain of a map once each, in strictly increasing
      order, and every key lies in [1, next). */
  ghost predicate KeyOrder(keys: seq<int>, domain: set<int>, next: int) {
    && (forall i, j :: 0 <= i < j < |keys| ==> keys[i] < keys[j])
    && (forall i :: 0 <= i < |keys| ==> keys[i] in domain)
    && (forall k :: k in domain ==> k in keys)
    && (forall k :: k in domain ==> 1 <= k < next)
  }

  class MemStorage {
    var users: map<int, User>
    var userKeys: seq<int>
    var dataPoints: map<int, DataPoint>
    var dataPointKeys: seq<int>
    var currentUserId: int
    var currentDataPointId: int

    /** Ids come from the counters: every stored id is below its counter,
        every entry is stored under its own id, and insertion order is
        ascending id order. */
    ghost predicate Valid()
      reads this
    {
      && 1 <= currentUserId && 1 <= currentDataPointId
      && KeyOrder(userKeys, users.Keys, currentUserId)
      && KeyOrder(dataPointKeys, dataPoints.Keys, currentDataPointId)
      && (forall k :: k in users ==> users[k].id == k)
      && (forall k :: k in dataPoints ==> dataPoints[k].id == k)
    }

    /** A fresh store: both maps empty, both counters at 1. */
    constructor ()
      ensures Valid()
      ensures users == map[] && userKeys == [] && currentUserId == 1
      ensures dataPoints == map[] && dataPointKeys == [] && currentDataPointId == 1
    {
      users := map[];
      userKeys := [];
      dataPoints := map[];
      dataPointKeys := [];
      currentUserId := 1;
      currentDataPointId := 1;
    }

    /** `getUser`: the user stored under `id`, if any. */
    method GetUser(id: int) returns (u: Option<User>)
      requires Valid()
      ensures u.Some? <==> id in users
      ensures u.Some? ==> u.value == users[id] && u.value.id == id
    {
      if id in users {
        u := Some(users[id]);
      } else {
        u := None;
      }
    }

    /** `getUserByUsername`: the earliest-inserted user with exactly this
        username, or none when no user has it. */
    method GetUserByUsername(username: string) returns (u: Option<User>)
      requires Valid()
      ensures u.None? <==> forall k :: k in users ==> users[k].username != username
      ensures u.Some? ==> exists i :: (
        && 0 <= i < |userKeys| && users[userKeys[i]] == u.value
        && u.value.username == username
        && forall j :: 0 <= j < i ==> users[userKeys[j]].username != username)
    {
      var i := 0;
      while i < |userKeys|
        invariant 0 <= i <= |userKeys|
        invariant forall j :: 0 <= j < i ==> users[userKeys[j]].username != username
      {
        var user := users[userKeys[i]];
        if user.username == username {
          var k := userKeys[i];
          assert k in users && users[k].username == username;
          assert && 0 <= i < |userKeys| && users[userKeys[i]] == user && user.username == username
                 && forall j :: 0 <= j < i ==> users[userKeys[j]].username != username;
          return Some(user);
        }
        i := i + 1;
      }
      forall k | k in users
        ensures users[k].username != username
      {
        var j :| 0 <= j < |userKeys| && userKeys[j] == k;
      }
      return None;
    }

    /** `createUser`: the user gets the counter's value as id, the counter
        advances by one, and the users map gains exactly that key. Duplicate
        usernames are not rejected. */
    method CreateUser(insertUser: NewUser) returns (user: User)
      requires Valid()
      modifies this
      ensures Valid()
      ensures user == User(old(currentUserId), insertUser.username, insertUser.password)
      ensures user.id !in old(users)
      ensures currentUserId == old(currentUserId) + 1
      ensures users == old(users)[user.id := user]
      ensures userKeys == old(userKeys) + [user.id]
      ensures dataPoints == old(dataPoints) && dataPointKeys == old(dataPointKeys)
      ensures currentDataPointId == old(currentDataPointId)
    {
      var id := currentUserId;
      currentUserId := currentUserId + 1;
      user := User(id, insertUser.username, insertUser.password);
      users := users[id := user];
      userKeys := userKeys + [id];
    }

    /** `getDataPoints`: every stored point once, in insertion order, which
        is ascending id order. Nothing changes. */
    method GetDataPoints() returns (points: seq<DataPoint>)
      requires Valid()
      ensures |points| == |dataPointKeys| == |dataPoints|
      ensures forall i :: 0 <= i < |points| ==> points[i] == dataPoints[dataPointKeys[i]]
      ensures forall i, j :: 0 <= i < j < |points| ==> points[i].id < points[j].id
      ensures forall k :: k in dataPoints ==> dataPoints[k] in points
    {
      points := [];
      var i := 0;
      while i < |dataPointKeys|
        invariant 0 <= i <= |dataPointKeys|
        invariant |points| == i
        invariant forall j :: 0 <= j < i ==> points[j] == dataPoints[dataPointKeys[j]]
      {
        points := points + [dataPoints[dataPointKeys[i]]];
        i := i + 1;
      }
      forall k | k in dataPoints
        ensures dataPoints[k] in points
      {
        var j :| 0 <= j < |dataPointKeys| && dataPointKeys[j] == k;
        assert points[j] == dataPoints[k];
      }
      KeyOrderCount(dataPointKeys, dataPoints.Keys, currentDataPointId);
    }

    /** `createDataPoint`: the point gets the counter's value as id, the
        counter advances by one, and the map gains exactly that key while
        every earlier entry stays as it was. */
    method CreateDataPoint(data: NewDataPoint) returns (point: DataPoint)
      requires Valid()
      modifies this
      ensures Valid()
      ensures point == DataPoint(old(currentDataPointId), data.campaignId, data.value, data.timestamp, data.category)
      ensures point.id !in old(dataPoints)
      ensures currentDataPointId == old(currentDataPointId) + 1
      ensures dataPoints == old(dataPoints)[point.id := point]
      ensures dataPointKeys == old(dataPointKeys) + [point.id]
      ensures users == old(users) && userKeys == old(userKeys)
      ensures currentUserId == old(currentUserId)
    {
      var id := currentDataPointId;
      currentDataPointId := currentDataPointId + 1;
      point := DataPoint(id, data.campaignId, data.value, data.timestamp, data.category);
      dataPoints := dataPoints[id := point];
      dataPointKeys := dataPointKeys + [id];
    }
  }

  /** A key order lists exactly as many keys as the map holds. */
  lemma {:induction false} KeyOrderCount(keys: seq<int>, domain: set<int>, next: int)
    requires KeyOrder(keys, domain, next)
    ensures |keys| == |domain|
  {
    if keys != [] {
      var last := keys[|keys| - 1];
      var init := keys[..|keys| - 1];
      forall k | k in domain - {last}
        ensures k in init
      {
        var j :| 0 <= j < |keys| && keys[j] == k;
        assert j != |keys| - 1;
      }
      assert forall j :: 0 <= j < |init| ==> init[j] < last;
      KeyOrderCount(init, domain - {last}, next);
    } else {
      assert forall k :: k !in domain;
      assert domain == {};
    }
  }

  /** Two users registered under the same name in a fresh store are both
      stored, under ids 1 and 2 in that order, and lookup by name finds the
      first. */
  method DuplicateUsernames(name: string, password1: string, password2: string)
    returns (store: MemStorage, found: Option<User>)
    ensures store.users == map[1 := User(1, name, password1), 2 := User(2, name, password2)]
    ensures store.userKeys == [1, 2] && store.currentUserId == 3
    ensures found == Some(User(1, name, password1))
  {
    store := new MemStorage();
    var first := store.CreateUser(NewUser(name, password1));
    var second := store.CreateUser(NewUser(name, password2));
    found := store.GetUserByUsername(name);
    assert store.users[store.userKeys[0]] == first;
  }
}
