/** What the contact modules share: a group member's permission (mirai-core-api, contact/MemberPermission.kt). */
module Contacts {
  datatype MemberPermission = Member | Administrator | Owner

  /** `MemberPermission.isOperator()`: administrators and the owner. */
  predicate IsOperator(p: MemberPermission)
  {
    p == Administrator || p == Owner
  }
}

/**
 * The contact tables of a bot and the operations that add contacts to them
 * or remove contacts from them when the server reports a new friend,
 * stranger, group or member (mirai-core, network/notice/NewContactSupport.kt).
 *
 * The bot's `friends` and `strangers` are lists of contact objects looked up
 * by id; here they are maps from id to the contact's info, with every key
 * equal to its contact's `uin`. `groups` keeps its list order. Contacts are
 * values: a contact object's coroutine scope (cancelled on removal) and a
 * group's member list (fetched over the network) are not part of the model.
 */
module NewContacts {
  import opened Wrappers
  import opened Contacts

  /** The fields of `MsgComm.MsgHead` that getNewMemberInfo reads. */
  datatype MsgHead = MsgHead(fromNick: string, authNick: string, authUin: int)

  datatype MemberInfo = MemberInfo(
    nameCard: string, permission: MemberPermission, specialTitle: string, muteTimestamp: int,
    uin: int, nick: string, remark: string, anonymousId: Option<string>)

  /** A friend's or a stranger's info (`FriendInfoImpl`, `StrangerInfoImpl`). */
  datatype ContactInfo = ContactInfo(uin: int, nick: string, remark: string)

  /** The fields of `StTroopNum` a new group is built from. */
  datatype TroopNum = TroopNum(groupCode: int, groupUin: int, groupOwnerUin: int, groupName: string)

  /** A `StGroupRankInfo`, identified by the group code it belongs to. */
  datatype GroupRankInfo = GroupRankInfo(groupCode: int, titles: seq<string>)

  /** A group as the bot holds it: its id is the group code. */
  datatype Group = Group(id: int, troop: TroopNum, rankInfo: Option<GroupRankInfo>)

  /** Kotlin's `ifEmpty { fallback }` on a string. */
  function IfEmpty(s: string, fallback: string): (r: string)
    ensures s != "" ==> r == s
    ensures s == "" ==> r == fallback
  {
    if s == "" then fallback else s
  }

  /**
   * `Msg.getNewMemberInfo()`: a plain member named by the authorising
   * nickname, or by the sender's nickname when that is empty.
   */
  function GetNewMemberInfo(head: MsgHead): (m: MemberInfo)
    ensures head.authNick != "" ==> m.nick == head.authNick
    ensures head.authNick == "" ==> m.nick == head.fromNick
    ensures m.nameCard == m.nick && m.uin == head.authUin
    ensures m.permission == Member && m.specialTitle == "" && m.muteTimestamp == 0
    ensures m.remark == "" && m.anonymousId == None
  {
    var name := IfEmpty(head.authNick, head.fromNick);
    MemberInfo(name, Member, "", 0, head.authUin, name, "", None)
  }

  /** The index of the first element of `troops` with this group code (`firstOrNull`). */
  function FirstTroop(troops: seq<TroopNum>, code: int): (r: Option<nat>)
    ensures r.None? <==> forall i :: 0 <= i < |troops| ==> troops[i].groupCode != code
    ensures r.Some? ==> r.value < |troops| && troops[r.value].groupCode == code
    ensures r.Some? ==> forall i :: 0 <= i < r.value ==> troops[i].groupCode != code
  {
    if troops == [] then None
    else if troops[0].groupCode == code then Some(0)
    else
      var r := FirstTroop(troops[1..], code);
      if r.Some? then Some(r.value + 1) else None
  }

  /** The first rank info for this group code (`find`). */
  function FindRank(ranks: seq<GroupRankInfo>, code: int): (r: Option<GroupRankInfo>)
    ensures r.None? <==> forall i :: 0 <= i < |ranks| ==> ranks[i].groupCode != code
    ensures r.Some? ==> r.value.groupCode == code
    ensures r.Some? ==> exists i :: 0 <= i < |ranks| && ranks[i] == r.value &&
                          forall j :: 0 <= j < i ==> ranks[j].groupCode != code
  {
    if ranks == [] then None
    else if ranks[0].groupCode == code then Some(ranks[0])
    else
      var r := FindRank(ranks[1..], code);
      if r.Some? then
        var i :| 0 <= i < |ranks[1..]| && ranks[1..][i] == r.value &&
                 forall j :: 0 <= j < i ==> ranks[1..][j].groupCode != code;
        assert ranks[i + 1] == r.value;
        r
      else r
  }

  /** `getNewGroup(troopNum, rankInfo)`: a group with the troop's code as its id. */
  function NewGroup(troop: TroopNum, rankInfo: Option<GroupRankInfo>): (g: Group)
    ensures g.id == troop.groupCode && g.troop == troop && g.rankInfo == rankInfo
  {
    Group(troop.groupCode, troop, rankInfo)
  }

  /** `getGroup(code) != null`. */
  predicate HasGroup(groups: seq<Group>, code: int)
  {
    exists i :: 0 <= i < |groups| && groups[i].id == code
  }

  /** `getGroupByUin(groupUin) != null`. */
  predicate HasGroupUin(groups: seq<Group>, groupUin: int)
  {
    exists i :: 0 <= i < |groups| && groups[i].troop.groupUin == groupUin
  }

  /** Group ids are distinct. */
  predicate DistinctIds(groups: seq<Group>)
  {
    forall i, j :: 0 <= i < j < |groups| ==> groups[i].id != groups[j].id
  }

  /** Appending a group whose id is new keeps the ids distinct. */
  lemma {:induction false} AppendKeepsDistinct(groups: seq<Group>, g: Group)
    requires DistinctIds(groups) && !HasGroup(groups, g.id)
    ensures DistinctIds(groups + [g])
  {
    forall i, j | 0 <= i < j < |groups + [g]|
      ensures (groups + [g])[i].id != (groups + [g])[j].id
    {
      if j == |groups| {
        assert groups[i].id != g.id;
      } else {
        assert groups[i].id != groups[j].id;
      }
    }
  }

  /** Every key of a contact table is the uin of the contact stored under it. */
  predicate KeyedByUin(table: map<int, ContactInfo>)
  {
    forall id :: id in table ==> table[id].uin == id
  }

  class ContactTables {
    var friends: map<int, ContactInfo>
    var strangers: map<int, ContactInfo>
    var groups: seq<Group>

    /** No uin is both a friend and a stranger, tables are keyed by uin, and group ids are distinct. */
    ghost predicate Valid()
      reads this
    {
      && KeyedByUin(friends) && KeyedByUin(strangers)
      && friends.Keys !! strangers.Keys
      && DistinctIds(groups)
    }

    constructor ()
      ensures Valid() && friends == map[] && strangers == map[] && groups == []
    {
      friends := map[];
      strangers := map[];
      groups := [];
    }

    /** `removeStranger(id)`: remove and return the stranger with this id, if there is one. */
    method RemoveStranger(id: int) returns (removed: Option<ContactInfo>)
      requires Valid()
      modifies this
      ensures Valid()
      ensures id !in old(strangers) ==> removed == None && strangers == old(strangers)
      ensures id in old(strangers) ==> removed == Some(old(strangers)[id]) && strangers == old(strangers) - {id}
      ensures friends == old(friends) && groups == old(groups)
    {
      if id !in strangers {
        return None;
      }
      var instance := strangers[id];
      strangers := strangers - {instance.uin};
      removed := Some(instance);
    }

    /** `removeFriend(id)`: remove and return the friend with this id, if there is one. */
    method RemoveFriend(id: int) returns (removed: Option<ContactInfo>)
      requires Valid()
      modifies this
      ensures Valid()
      ensures id !in old(friends) ==> removed == None && friends == old(friends)
      ensures id in old(friends) ==> removed == Some(old(friends)[id]) && friends == old(friends) - {id}
      ensures strangers == old(strangers) && groups == old(groups)
    {
      if id !in friends {
        return None;
      }
      var instance := friends[id];
      friends := friends - {instance.uin};
      removed := Some(instance);
    }

    /** `addNewFriendAndRemoveStranger(info)`: a new friend stops being a stranger. */
    method AddNewFriendAndRemoveStranger(info: ContactInfo) returns (added: Option<ContactInfo>)
      requires Valid()
      modifies this
      ensures Valid()
      ensures info.uin in old(friends) ==>
                added == None && friends == old(friends) && strangers == old(strangers)
      ensures info.uin !in old(friends) ==>
                && added == Some(info)
                && friends == old(friends)[info.uin := info]
                && strangers == old(strangers) - {info.uin}
      ensures groups == old(groups)
    {
      if info.uin in friends {
        return None;
      }
      if info.uin in strangers {
        var _ := RemoveStranger(strangers[info.uin].uin);
      }
      friends := friends[info.uin := info];
      added := Some(info);
    }

    /** `addNewStranger(info)`: only a uin that is neither a friend nor a stranger becomes a stranger. */
    method AddNewStranger(info: ContactInfo) returns (added: Option<ContactInfo>)
      requires Valid()
      modifies this
      ensures Valid()
      ensures info.uin in old(friends) || info.uin in old(strangers) ==>
                added == None && strangers == old(strangers)
      ensures info.uin !in old(friends) && info.uin !in old(strangers) ==>
                added == Some(info) && strangers == old(strangers)[info.uin := info]
      ensures friends == old(friends) && groups == old(groups)
    {
      if info.uin in friends {
        return None;
      }
      if info.uin in strangers {
        return None;
      }
      strangers := strangers[info.uin := info];
      added := Some(info);
    }

    /**
     * `addNewGroup(stTroopNum, stGroupRankInfo)`: append the group unless one
     * with its code is already there.
     */
    method AddNewGroup(troop: TroopNum, rankInfo: Option<GroupRankInfo>) returns (added: Option<Group>)
      requires Valid()
      modifies this
      ensures Valid()
      ensures HasGroup(old(groups), troop.groupCode) ==> added == None && groups == old(groups)
      ensures !HasGroup(old(groups), troop.groupCode) ==>
                added == Some(NewGroup(troop, rankInfo)) && groups == old(groups) + [added.value]
      ensures friends == old(friends) && strangers == old(strangers)
    {
      if HasGroup(groups, troop.groupCode) {
        return None;
      }
      var g := NewGroup(troop, rankInfo);
      AppendKeepsDistinct(groups, g);
      groups := groups + [g];
      added := Some(g);
    }

    /**
     * `addNewGroupByCode(code)`. The troop list and rank list of the server's
     * reply to `GetTroopListSimplify` are the parameters `troops` and `ranks`:
     * the first troop with the code is the group, with the first rank info
     * for the code.
     */
    method AddNewGroupByCode(code: int, troops: seq<TroopNum>, ranks: seq<GroupRankInfo>) returns (added: Option<Group>)
      requires Valid()
      modifies this
      ensures Valid()
      ensures HasGroup(old(groups), code) || FirstTroop(troops, code).None? ==>
                added == None && groups == old(groups)
      ensures !HasGroup(old(groups), code) && FirstTroop(troops, code).Some? ==>
                && added == Some(NewGroup(troops[FirstTroop(troops, code).value], FindRank(ranks, code)))
                && added.value.id == code
                && groups == old(groups) + [added.value]
      ensures friends == old(friends) && strangers == old(strangers)
    {
      if HasGroup(groups, code) {
        return None;
      }
      var index := FirstTroop(troops, code);
      if index.None? {
        return None;
      }
      var g := NewGroup(troops[index.value], FindRank(ranks, code));
      AppendKeepsDistinct(groups, g);
      groups := groups + [g];
      added := Some(g);
    }

    /**
     * `addNewGroupByUin(groupUin)`: unless a group with this uin is known, add
     * the group whose code `calculateGroupCode` derives from the uin
     * (`Mirai.calculateGroupCodeByGroupUin`, a parameter here).
     */
    method AddNewGroupByUin(groupUin: int, calculateGroupCode: int -> int, troops: seq<TroopNum>, ranks: seq<GroupRankInfo>)
      returns (added: Option<Group>)
      requires Valid()
      modifies this
      ensures Valid()
      ensures HasGroupUin(old(groups), groupUin) ==> added == None && groups == old(groups)
      ensures !HasGroupUin(old(groups), groupUin) ==>
                var code := calculateGroupCode(groupUin);
                if HasGroup(old(groups), code) || FirstTroop(troops, code).None? then
                  added == None && groups == old(groups)
                else
                  && added == Some(NewGroup(troops[FirstTroop(troops, code).value], FindRank(ranks, code)))
                  && groups == old(groups) + [added.value]
      ensures friends == old(friends) && strangers == old(strangers)
    {
      if HasGroupUin(groups, groupUin) {
        return None;
      }
      added := AddNewGroupByCode(calculateGroupCode(groupUin), troops, ranks);
    }
  }

  /**
   * A friend request accepted from a stranger, then a stranger report for the
   * same uin: the uin ends up a friend and never a stranger, and the second
   * report is ignored.
   */
  method FriendThenStrangerScenario() returns (first: Option<ContactInfo>, second: Option<ContactInfo>, isStranger: bool)
    ensures first == Some(ContactInfo(42, "Alice", "")) && second == None && !isStranger
  {
    var tables := new ContactTables();
    var _ := tables.AddNewStranger(ContactInfo(42, "alice", ""));
    first := tables.AddNewFriendAndRemoveStranger(ContactInfo(42, "Alice", ""));
    second := tables.AddNewStranger(ContactInfo(42, "alice", ""));
    isStranger := 42 in tables.strangers;
  }
}
