/** The client's user cache seen as a value: a map from user id to the record
    cached for it. This is what CClient::addUser and the user-list callback do
    to the cache, stated without the record objects, so that the effect of a
    whole list can be described and reasoned about. */
module UserCache {
  import opened Protocol

  /** What a cached user record holds. */
  datatype UserInfo = UserInfo(id: uint32, screenName: string, avatar: string)

  type Cache = map<uint32, UserInfo>

  /** The checks and conversions of addUser: a list `[id, screenName, avatar, ...]`
      gives a record; a payload with fewer than three elements, or whose id
      reads as 0, gives none. */
  function ParseUser(data: Payload): (r: Option<UserInfo>)
    ensures r.Some? ==> r.value.id > 0
  {
    var arguments := ToList(data);
    if |arguments| < 3 then None
    else
      var userId := ToUInt(arguments[0]);
      if userId > 0 then Some(UserInfo(userId, ToStr(arguments[1]), ToStr(arguments[2])))
      else None
  }

  /** addUser would store a record with id `k` for `data`. */
  predicate Adds(data: Payload, k: uint32)
  {
    ParseUser(data).Some? && ParseUser(data).value.id == k
  }

  /** One addUser on the cache: a valid payload inserts (or overwrites) its
      id's entry, anything else leaves the cache as it is. */
  function AddUserTo(cache: Cache, data: Payload): (r: Cache)
    ensures ParseUser(data).None? ==> r == cache
    ensures ParseUser(data).Some? ==>
      r.Keys == cache.Keys + {ParseUser(data).value.id} && r[ParseUser(data).value.id] == ParseUser(data).value
  {
    match ParseUser(data)
    case None => cache
    case Some(user) => cache[user.id := user]
  }

  /** The ids that addUser accepts from the elements of `list`. */
  function ValidIds(list: seq<Payload>): (ids: set<uint32>)
    ensures forall k :: k in ids ==> k > 0
  {
    if list == [] then {}
    else
      var last := list[|list| - 1];
      ValidIds(list[..|list| - 1]) + (if ParseUser(last).Some? then {ParseUser(last).value.id} else {})
  }

  /** An id is valid for a list exactly when some element of the list adds it. */
  lemma {:induction false} ValidIdsWitness(list: seq<Payload>)
    ensures forall k :: k in ValidIds(list) <==> exists i :: 0 <= i < |list| && Adds(list[i], k)
  {
    if list != [] {
      var init := list[..|list| - 1];
      ValidIdsWitness(init);
      assert forall i :: 0 <= i < |init| ==> init[i] == list[i];
    }
  }

  /** The position of the last element of `list` that addUser accepts with id
      `k`, or -1 when there is none. */
  function LastEntry(list: seq<Payload>, k: uint32): (i: int)
    ensures -1 <= i < |list|
    ensures i >= 0 <==> k in ValidIds(list)
    ensures i >= 0 ==> Adds(list[i], k)
    ensures forall j :: i < j < |list| ==> !Adds(list[j], k)
  {
    if list == [] then -1
    else if Adds(list[|list| - 1], k) then |list| - 1
    else
      var init := list[..|list| - 1];
      assert forall j :: 0 <= j < |init| ==> init[j] == list[j];
      LastEntry(init, k)
  }

  /** addUser applied to every element of `list`, first to last, as the
      foreach loop of the user-list callback does. */
  function ApplyUsers(cache: Cache, list: seq<Payload>): (r: Cache)
    ensures r.Keys == cache.Keys + ValidIds(list)
  {
    if list == [] then cache
    else AddUserTo(ApplyUsers(cache, list[..|list| - 1]), list[|list| - 1])
  }

  /** After a list of addUser calls an id of the list maps to the record of
      its last valid entry (later entries overwrite earlier ones), and every
      other id keeps its old record. */
  lemma {:induction false} ApplyUsersEntries(cache: Cache, list: seq<Payload>)
    ensures forall k :: k in ValidIds(list) ==>
      ApplyUsers(cache, list)[k] == ParseUser(list[LastEntry(list, k)]).value
    ensures forall k :: k in cache && k !in ValidIds(list) ==> ApplyUsers(cache, list)[k] == cache[k]
  {
    if list != [] {
      var init, last := list[..|list| - 1], list[|list| - 1];
      ApplyUsersEntries(cache, init);
      forall k | k in ValidIds(list)
        ensures ApplyUsers(cache, list)[k] == ParseUser(list[LastEntry(list, k)]).value
      {
        if !Adds(last, k) {
          assert LastEntry(list, k) == LastEntry(init, k);
        }
      }
    }
  }

  /** The user-list callback on the cache: a non-empty cache is first cut
      down to the self record alone, then every element of `list` goes
      through addUser. */
  function ReplaceUsers(cache: Cache, self: Option<UserInfo>, list: seq<Payload>): (r: Cache)
    requires cache != map[] ==> self.Some?
    ensures r.Keys == (if cache == map[] then {} else {self.value.id}) + ValidIds(list)
  {
    ApplyUsers(if cache == map[] then cache else map[self.value.id := self.value], list)
  }

  /** After the user-list callback self keeps its record unless the list
      re-adds its id, and each id of the list maps to its last valid entry. */
  lemma {:induction false} ReplaceUsersEntries(cache: Cache, self: Option<UserInfo>, list: seq<Payload>)
    requires cache != map[] ==> self.Some?
    ensures cache != map[] && self.value.id !in ValidIds(list) ==>
      ReplaceUsers(cache, self, list)[self.value.id] == self.value
    ensures forall k :: k in ValidIds(list) ==>
      ReplaceUsers(cache, self, list)[k] == ParseUser(list[LastEntry(list, k)]).value
  {
    ApplyUsersEntries(if cache == map[] then cache else map[self.value.id := self.value], list);
  }

  /** The least id of a non-empty set: the first key QMap visits when it
      iterates in ascending key order. */
  ghost function Least(ids: set<uint32>): (m: uint32)
    requires ids != {}
    ensures m in ids
    ensures forall k :: k in ids ==> m <= k
    decreases ids
  {
    var x :| x in ids;
    var others := ids - {x};
    assert forall k :: k in ids ==> k == x || k in others;
    if others == {} then x
    else
      var rest := Least(others);
      if x < rest then x else rest
  }
}
