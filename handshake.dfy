/** How the two sides meet: the identity list a server agent announces
    (briefIntroduction) is exactly what the client's addUser accepts. */
module Handshake {
  import opened Protocol
  import opened UserCache
  import opened Server

  /** The client reads back the record an agent announced; an agent whose
      id is 0 is refused. */
  lemma IntroductionRoundTrip(id: uint32, screenName: string, avatar: string)
    ensures ParseUser(Introduction(id, screenName, avatar)) ==
      if id > 0 then Some(UserInfo(id, screenName, avatar)) else None
  {
  }

  /** The user list announcing a sequence of users. */
  function Introductions(infos: seq<UserInfo>): (list: seq<Payload>)
    ensures |list| == |infos|
    ensures forall i :: 0 <= i < |infos| ==>
      list[i] == Introduction(infos[i].id, infos[i].screenName, infos[i].avatar)
  {
    seq(|infos|, i requires 0 <= i < |infos| =>
      Introduction(infos[i].id, infos[i].screenName, infos[i].avatar))
  }

  /** A user list made of introductions adds exactly the non-zero ids it
      announces, each with the record its last introduction carries. */
  lemma IntroductionsAdd(cache: Cache, infos: seq<UserInfo>)
    ensures ValidIds(Introductions(infos)) == set i | 0 <= i < |infos| && infos[i].id > 0 :: infos[i].id
    ensures ApplyUsers(cache, Introductions(infos)).Keys == cache.Keys + ValidIds(Introductions(infos))
    ensures forall k :: k in ValidIds(Introductions(infos)) ==>
      var last := LastEntry(Introductions(infos), k);
      0 <= last < |infos| && ApplyUsers(cache, Introductions(infos))[k] == infos[last]
  {
    var list := Introductions(infos);
    forall i | 0 <= i < |infos|
      ensures ParseUser(list[i]) == if infos[i].id > 0 then Some(infos[i]) else None
    {
      IntroductionRoundTrip(infos[i].id, infos[i].screenName, infos[i].avatar);
    }
    ValidIdsWitness(list);
    ApplyUsersEntries(cache, list);
  }
}
