/**
 * A mock group's announcement board (mirai-core-mock,
 * internal/contact/MockAnnouncementsImpl.kt): a table from announcement id
 * (`fid`) to announcement object, changed in place. Fresh ids
 * (`UUID.randomUUID()`) and the clock (`currentTimeSeconds()`) are
 * parameters of the operations that use them.
 */
module MockAnnouncements {
  import opened Wrappers
  import opened Contacts

  /** `AnnouncementParameters` without the image. */
  datatype AnnouncementParameters = AnnouncementParameters(
    sendToNewMember: bool, isPinned: bool, showEditCard: bool, showPopup: bool, requireConfirmation: bool)

  /** An announcement not yet published: content and parameters. */
  datatype Announcement = Announcement(content: string, parameters: AnnouncementParameters)

  /** A group member as the announcement board sees one. */
  datatype NormalMember = NormalMember(id: int, permission: MemberPermission)

  const PublishDenied: string := "Failed to publish a new announcement because bot don't have admin permission to perform it."
  const MembersDenied: string := "Only administrator have permission see announcement confirmed detail"
  const RemindDenied: string := "Only administrator have permission send announcement remind"

  /** The parts of the mock group the board uses. */
  class MockGroup {
    const botId: int
    var botPermission: MemberPermission
    var members: seq<NormalMember>

    constructor (botId: int, botPermission: MemberPermission, members: seq<NormalMember>)
      ensures this.botId == botId && this.botPermission == botPermission && this.members == members
    {
      this.botId := botId;
      this.botPermission := botPermission;
      this.members := members;
    }

    /** `botAsMember`: the bot, with its permission in this group. */
    function BotAsMember(): (m: NormalMember)
      reads this
      ensures m.id == botId && m.permission == botPermission
    {
      NormalMember(botId, botPermission)
    }
  }

  /** `MockOnlineAnnouncement`: a published announcement; only the group it belongs to is assigned after creation. */
  class MockOnlineAnnouncement {
    const content: string
    const parameters: AnnouncementParameters
    const senderId: int
    const fid: string
    const allConfirmed: bool
    const confirmedMembersCount: int
    const publicationTime: int
    var group: MockGroup?

    constructor (content: string, parameters: AnnouncementParameters, senderId: int, fid: string,
                 allConfirmed: bool, confirmedMembersCount: int, publicationTime: int)
      ensures this.content == content && this.parameters == parameters && this.senderId == senderId
      ensures this.fid == fid && this.allConfirmed == allConfirmed
      ensures this.confirmedMembersCount == confirmedMembersCount && this.publicationTime == publicationTime
      ensures group == null
    {
      this.content := content;
      this.parameters := parameters;
      this.senderId := senderId;
      this.fid := fid;
      this.allConfirmed := allConfirmed;
      this.confirmedMembersCount := confirmedMembersCount;
      this.publicationTime := publicationTime;
      group := null;
    }

    /** `copy(fid = fid)`: the same announcement under another id. */
    constructor CopyWithFid(a: MockOnlineAnnouncement, fid: string)
      ensures SameExceptFid(this, a) && this.fid == fid && group == null
    {
      content := a.content;
      parameters := a.parameters;
      senderId := a.senderId;
      this.fid := fid;
      allConfirmed := a.allConfirmed;
      confirmedMembersCount := a.confirmedMembersCount;
      publicationTime := a.publicationTime;
      group := null;
    }
  }

  /** `a` and `b` hold the same announcement, whatever their ids. */
  predicate SameExceptFid(a: MockOnlineAnnouncement, b: MockOnlineAnnouncement)
  {
    && a.content == b.content && a.parameters == b.parameters && a.senderId == b.senderId
    && a.allConfirmed == b.allConfirmed && a.confirmedMembersCount == b.confirmedMembersCount
    && a.publicationTime == b.publicationTime
  }

  type Board = map<string, MockOnlineAnnouncement>

  /** Every entry is stored under its own fid. */
  predicate KeyedByFid(board: Board)
  {
    forall f :: f in board ==> board[f].fid == f
  }

  /** At most one entry is the announcement shown to new members. */
  predicate AtMostOneNewMemberNotice(board: Board)
  {
    forall f, g :: f in board && g in board && board[f].parameters.sendToNewMember && board[g].parameters.sendToNewMember ==> f == g
  }

  /**
   * The table after `putDirect` stores `ann`: when `ann` is shown to new
   * members, every entry shown to new members goes first
   * (`removeIf { sendToNewMember }`); then `ann` is stored under its fid.
   */
  function Put(board: Board, ann: MockOnlineAnnouncement): (r: Board)
    ensures ann.fid in r && r[ann.fid] == ann
    ensures r.Keys <= board.Keys + {ann.fid}
    ensures forall f :: f in board && f != ann.fid && !board[f].parameters.sendToNewMember ==> f in r && r[f] == board[f]
    ensures forall f :: f in board && f != ann.fid && board[f].parameters.sendToNewMember ==>
              (f in r <==> !ann.parameters.sendToNewMember) && (f in r ==> r[f] == board[f])
    ensures ann.parameters.sendToNewMember ==> forall f :: f in r && r[f].parameters.sendToNewMember ==> f == ann.fid
  {
    var kept := if ann.parameters.sendToNewMember
                then map f | f in board && !board[f].parameters.sendToNewMember :: board[f]
                else board;
    kept[ann.fid := ann]
  }

  /** Storing keeps the table keyed by fid and with at most one notice for new members. */
  lemma {:induction false} PutKeepsInvariant(board: Board, ann: MockOnlineAnnouncement)
    requires KeyedByFid(board) && AtMostOneNewMemberNotice(board)
    ensures KeyedByFid(Put(board, ann)) && AtMostOneNewMemberNotice(Put(board, ann))
  {
    var r := Put(board, ann);
    forall f, g | f in r && g in r && r[f].parameters.sendToNewMember && r[g].parameters.sendToNewMember
      ensures f == g
    {
      if f != ann.fid && g != ann.fid {
        assert r[f] == board[f] && r[g] == board[g];
      }
    }
  }

  class MockAnnouncementsImpl {
    const group: MockGroup
    var announcements: Board

    ghost predicate Valid()
      reads this
    {
      KeyedByFid(announcements) && AtMostOneNewMemberNotice(announcements)
    }

    constructor (group: MockGroup)
      ensures Valid() && this.group == group && announcements == map[]
    {
      this.group := group;
      announcements := map[];
    }

    /** `delete(fid)`: true exactly when there was an entry to remove. */
    method Delete(fid: string) returns (deleted: bool)
      requires Valid()
      modifies this
      ensures Valid()
      ensures deleted <==> fid in old(announcements)
      ensures announcements == old(announcements) - {fid}
    {
      deleted := fid in announcements;
      announcements := announcements - {fid};
    }

    /** `get(fid)`: the entry stored under `fid`, or null. */
    function Get(fid: string): (r: Option<MockOnlineAnnouncement>)
      reads this
      ensures r.Some? <==> fid in announcements
      ensures r.Some? ==> r.value == announcements[fid]
    {
      if fid in announcements then Some(announcements[fid]) else None
    }

    /**
     * `putDirect(announcement)`: an announcement without an id is copied
     * under the new id `uuid`; then it is stored as `Put` says and assigned to
     * this board's group.
     */
    method PutDirect(announcement: MockOnlineAnnouncement, uuid: string) returns (stored: MockOnlineAnnouncement)
      requires Valid()
      modifies this, announcement
      ensures Valid()
      ensures announcement.fid != "" ==> stored == announcement
      ensures announcement.fid == "" ==>
                fresh(stored) && stored.fid == uuid && SameExceptFid(stored, announcement) && unchanged(announcement)
      ensures announcements == Put(old(announcements), stored)
      ensures stored.group == group
    {
      if announcement.fid == "" {
        stored := new MockOnlineAnnouncement.CopyWithFid(announcement, uuid);
      } else {
        stored := announcement;
      }
      PutKeepsInvariant(announcements, stored);
      announcements := Put(announcements, stored);
      stored.group := group;
    }

    /**
     * `mockPublish(announcement, actor, events)`: publish as `actor` at time
     * `now`, under the new id `uuid`, unconfirmed. No event is broadcast
     * either way.
     */
    method MockPublish(announcement: Announcement, actor: NormalMember, events: bool, uuid: string, now: int)
      returns (ann: MockOnlineAnnouncement)
      requires Valid() && uuid != ""
      modifies this
      ensures Valid()
      ensures fresh(ann) && ann.group == group
      ensures ann.content == announcement.content && ann.parameters == announcement.parameters
      ensures ann.senderId == actor.id && ann.fid == uuid && ann.publicationTime == now
      ensures !ann.allConfirmed && ann.confirmedMembersCount == 0
      ensures announcements == Put(old(announcements), ann)
    {
      ann := new MockOnlineAnnouncement(announcement.content, announcement.parameters, actor.id, uuid, false, 0, now);
      var stored := PutDirect(ann, uuid);
    }

    /** `publish(announcement)`: only an operator bot may publish, as itself. */
    method Publish(announcement: Announcement, uuid: string, now: int)
      returns (result: Result<MockOnlineAnnouncement, string>)
      requires Valid() && uuid != ""
      modifies this
      ensures Valid()
      ensures !IsOperator(group.botPermission) ==>
                result == Err(PublishDenied) && announcements == old(announcements)
      ensures IsOperator(group.botPermission) ==>
                && result.Ok? && fresh(result.value)
                && result.value.senderId == group.botId && result.value.fid == uuid
                && announcements == Put(old(announcements), result.value)
    {
      if !IsOperator(group.botPermission) {
        return Err(PublishDenied);
      }
      var ann := MockPublish(announcement, group.BotAsMember(), true, uuid, now);
      result := Ok(ann);
    }

    /** `members(fid, confirmed)`: for an operator bot, every member of the group, whatever `fid` and `confirmed` say. */
    method Members(fid: string, confirmed: bool) returns (result: Result<seq<NormalMember>, string>)
      ensures !IsOperator(group.botPermission) ==> result == Err(MembersDenied)
      ensures IsOperator(group.botPermission) ==> result == Ok(group.members)
    {
      if !IsOperator(group.botPermission) {
        return Err(MembersDenied);
      }
      result := Ok(group.members);
    }

    /** `remind(fid)`: for an operator bot, does nothing; otherwise a permission error. */
    method Remind(fid: string) returns (result: Result<(), string>)
      ensures !IsOperator(group.botPermission) ==> result == Err(RemindDenied)
      ensures IsOperator(group.botPermission) ==> result == Ok(())
    {
      if !IsOperator(group.botPermission) {
        return Err(RemindDenied);
      }
      result := Ok(());
    }
  }

  /** Storing an ordinary announcement and then two new-member notices keeps the ordinary one and the second notice. */
  lemma SecondNoticeReplacesFirst(plain: MockOnlineAnnouncement, first: MockOnlineAnnouncement, second: MockOnlineAnnouncement)
    requires plain.fid == "plain" && !plain.parameters.sendToNewMember
    requires first.fid == "n1" && first.parameters.sendToNewMember
    requires second.fid == "n2" && second.parameters.sendToNewMember
    ensures Put(Put(Put(map[], plain), first), second) == map["plain" := plain, "n2" := second]
  {
    var b1 := Put(map[], plain);
    assert b1 == map["plain" := plain];
    var b2 := Put(b1, first);
    assert b2 == map["plain" := plain, "n1" := first];
    var b3 := Put(b2, second);
    assert "n1" !in b3;
    assert b3.Keys == {"plain", "n2"};
  }

  /**
   * Two new-member notices published in turn: the board keeps only the
   * second, next to an ordinary announcement that stays untouched.
   */
  method NewMemberNoticeReplacedScenario() returns (first: MockOnlineAnnouncement, second: MockOnlineAnnouncement,
                                                    plain: MockOnlineAnnouncement, board: Board)
    ensures board == map["plain" := plain, "n2" := second]
    ensures first.fid == "n1" && second.fid == "n2"
  {
    var group := new MockGroup(1000, Owner, []);
    var impl := new MockAnnouncementsImpl(group);
    var notice := AnnouncementParameters(true, false, false, false, false);
    var ordinary := AnnouncementParameters(false, false, false, false, false);
    plain := impl.MockPublish(Announcement("rules", ordinary), group.BotAsMember(), false, "plain", 1);
    first := impl.MockPublish(Announcement("welcome", notice), group.BotAsMember(), false, "n1", 2);
    second := impl.MockPublish(Announcement("welcome!", notice), group.BotAsMember(), false, "n2", 3);
    board := impl.announcements;
    SecondNoticeReplacesFirst(plain, first, second);
  }
}
