/** Sessions: the conversations a user holds with one of their agents, their
    table and the service that checks ownership before touching them. */
module Sessions {
  import opened Wrappers
  import opened Tables
  import opened Json
  import Agents

  datatype Session = Session(
    id: Id, agentId: Id, userId: Id,
    title: Option<string>, emoji: Option<string>, description: Option<string>,
    metadata: Option<Json>, isActive: bool, lastMessageAt: Option<Instant>,
    createdAt: Instant, updatedAt: Instant)

  function SessionId(s: Session): Id { s.id }

  /** The column defaults of the `sessions` table. */
  const DefaultEmoji := "\U{1F4AC}"

  const SessionNotFoundMessage := "Session not found"
  const SessionAccessDeniedMessage := "Access denied." + " This session belongs to another user."
  const DefaultTitlePrefix := "New conversation - "

  /** The listing limit of `findByAgent` and `findByUser`. */
  const ListingLimit: nat := 50

  function ForAgent(agentId: Id, userId: Id): Session -> bool {
    (s: Session) => s.agentId == agentId && s.userId == userId
  }

  function OwnedBy(userId: Id): Session -> bool {
    (s: Session) => s.userId == userId
  }

  /** `order: [['lastMessageAt', 'DESC'], ['createdAt', 'DESC']]` as PostgreSQL
      runs it: a descending sort puts NULLs first, so sessions without a
      message come before every session with one. */
  predicate RecentFirst(a: Session, b: Session) {
    match (a.lastMessageAt, b.lastMessageAt)
    case (None, Some(_)) => true
    case (Some(_), None) => false
    case (Some(x), Some(y)) => x > y || (x == y && a.createdAt >= b.createdAt)
    case (None, None) => a.createdAt >= b.createdAt
  }

  lemma RecentFirstOrders()
    ensures TotalPreorder(RecentFirst)
  {
  }

  /** The fields `session.update(data)` may set; absent ones are kept. */
  datatype SessionPatch = SessionPatch(
    title: Option<string>, emoji: Option<string>, description: Option<string>,
    metadata: Option<Json>, isActive: Option<bool>, lastMessageAt: Option<Instant>)

  /** The session after `session.update(patch)`: only the supplied fields
      change, and `updatedAt` is stamped only when something did change. */
  function Saved(s: Session, p: SessionPatch, now: Instant): (r: Session)
    ensures r.id == s.id && r.agentId == s.agentId && r.userId == s.userId && r.createdAt == s.createdAt
    ensures p.title.None? ==> r.title == s.title
    ensures p.title.Some? ==> r.title == p.title
    ensures p.emoji.None? ==> r.emoji == s.emoji
    ensures p.emoji.Some? ==> r.emoji == p.emoji
    ensures p.description.None? ==> r.description == s.description
    ensures p.description.Some? ==> r.description == p.description
    ensures r.metadata == if p.metadata.Some? then p.metadata else s.metadata
    ensures r.isActive == p.isActive.GetOr(s.isActive)
    ensures r.lastMessageAt == if p.lastMessageAt.Some? then p.lastMessageAt else s.lastMessageAt
    ensures r.updatedAt == if r == s then s.updatedAt else now
  {
    var t := s.(
      title := if p.title.Some? then p.title else s.title,
      emoji := if p.emoji.Some? then p.emoji else s.emoji,
      description := if p.description.Some? then p.description else s.description,
      metadata := if p.metadata.Some? then p.metadata else s.metadata,
      isActive := p.isActive.GetOr(s.isActive),
      lastMessageAt := if p.lastMessageAt.Some? then p.lastMessageAt else s.lastMessageAt);
    if t == s then s else t.(updatedAt := now)
  }

  /** The `sessions` table. */
  class SessionRepository {
    var rows: seq<Session>
    var nextId: Id

    ghost predicate Valid()
      reads this
    {
      UniqueKeys(rows, SessionId) && KeysBelow(rows, SessionId, nextId)
    }

    constructor ()
      ensures Valid() && rows == [] && nextId == 0
    {
      rows := [];
      nextId := 0;
    }

    /** `create`: a new session with the column defaults for whatever the
        caller leaves out. */
    method Create(agentId: Id, userId: Id, title: Option<string>, metadata: Option<Json>, now: Instant)
      returns (session: Session)
      requires Valid()
      modifies this
      ensures Valid()
      ensures session == Session(old(nextId), agentId, userId, title, Some(DefaultEmoji), None,
                                 if metadata.Some? then metadata else Some(Obj(map[])),
                                 true, None, now, now)
      ensures rows == old(rows) + [session] && nextId == old(nextId) + 1
    {
      session := Session(nextId, agentId, userId, title, Some(DefaultEmoji), None,
                         if metadata.Some? then metadata else Some(Obj(map[])),
                         true, None, now, now);
      AppendKeepsKeys(rows, SessionId, session, nextId);
      rows := rows + [session];
      nextId := nextId + 1;
    }

    /** `findById`. */
    function FindById(id: Id): (r: Option<Session>)
      reads this
      ensures r.Some? ==> r.value in rows && r.value.id == id
      ensures r.None? <==> forall i | 0 <= i < |rows| :: rows[i].id != id
    {
      Find(rows, SessionId, id)
    }

    /** The rows satisfying `p`, most recent first, cut to the listing limit:
        at most 50 of them, and no row left out ranks before one kept. */
    function Listing(p: Session -> bool): (r: seq<Session>)
      reads this
      ensures |r| <= ListingLimit
      ensures forall s | s in r :: s in rows && p(s)
      ensures SortedBy(r, RecentFirst)
      ensures |r| == if Count(rows, p) < ListingLimit then Count(rows, p) else ListingLimit
      ensures forall s, t | s in r && t in rows && p(t) && t !in r :: RecentFirst(s, t)
      ensures Count(rows, p) <= ListingLimit ==> forall t | t in rows && p(t) :: t in r
      ensures multiset(r) <= multiset(Filter(rows, p))
    {
      var matching := Filter(rows, p);
      var sorted := Sort(matching, RecentFirst);
      RecentFirstOrders();
      SortSorted(matching, RecentFirst);
      TakeSorted(sorted, ListingLimit, RecentFirst);
      TakeRanks(sorted, ListingLimit, RecentFirst);
      assert |sorted| == |matching| by {
        assert |multiset(sorted)| == |multiset(matching)|;
      }
      var r := Take(sorted, ListingLimit);
      assert sorted == r + sorted[|r|..];
      assert multiset(sorted) == multiset(r) + multiset(sorted[|r|..]);
      forall s | s in r ensures s in rows && p(s) {
        assert s in sorted && s in multiset(sorted);
      }
      forall t | t in rows && p(t) ensures t in sorted {
        assert t in matching && t in multiset(matching);
      }
      r
    }

    /** `findByAgent`: the user's sessions with that agent. */
    function FindByAgent(agentId: Id, userId: Id): (r: seq<Session>)
      reads this
      ensures |r| <= ListingLimit
      ensures forall s | s in r :: s in rows && s.agentId == agentId && s.userId == userId
      ensures SortedBy(r, RecentFirst)
      ensures Count(rows, ForAgent(agentId, userId)) <= ListingLimit ==>
        forall s | s in rows && s.agentId == agentId && s.userId == userId :: s in r
      ensures |r| == if Count(rows, ForAgent(agentId, userId)) < ListingLimit
                     then Count(rows, ForAgent(agentId, userId)) else ListingLimit
      ensures forall s, t | s in r && t in rows && t.agentId == agentId && t.userId == userId && t !in r ::
        RecentFirst(s, t)
      ensures multiset(r) <= multiset(Filter(rows, ForAgent(agentId, userId)))
      ensures r == Listing(ForAgent(agentId, userId))
    {
      var r := Listing(ForAgent(agentId, userId));
      assert forall s | s in r :: ForAgent(agentId, userId)(s);
      assert forall s | s in rows && s.agentId == agentId && s.userId == userId :: ForAgent(agentId, userId)(s);
      r
    }

    /** `findByUser`: the user's sessions with any agent. */
    function FindByUser(userId: Id): (r: seq<Session>)
      reads this
      ensures |r| <= ListingLimit
      ensures forall s | s in r :: s in rows && s.userId == userId
      ensures SortedBy(r, RecentFirst)
      ensures Count(rows, OwnedBy(userId)) <= ListingLimit ==>
        forall s | s in rows && s.userId == userId :: s in r
      ensures |r| == if Count(rows, OwnedBy(userId)) < ListingLimit
                     then Count(rows, OwnedBy(userId)) else ListingLimit
      ensures forall s, t | s in r && t in rows && t.userId == userId && t !in r :: RecentFirst(s, t)
      ensures multiset(r) <= multiset(Filter(rows, OwnedBy(userId)))
      ensures r == Listing(OwnedBy(userId))
    {
      var r := Listing(OwnedBy(userId));
      assert forall s | s in r :: OwnedBy(userId)(s);
      assert forall s | s in rows && s.userId == userId :: OwnedBy(userId)(s);
      r
    }

    /** `update`: none for a missing session, which is left alone; otherwise the
        session with the supplied fields set, saved in place. */
    method Update(id: Id, p: SessionPatch, now: Instant) returns (r: Option<Session>)
      requires Valid()
      modifies this
      ensures Valid() && nextId == old(nextId)
      ensures old(FindById(id)).None? ==> r.None? && rows == old(rows)
      ensures old(FindById(id)).Some? ==>
        && r == Some(Saved(old(FindById(id)).value, p, now))
        && rows == Replace(old(rows), SessionId, id, r.value)
        && FindById(id) == r
    {
      var found := FindById(id);
      if found.None? {
        return None;
      }
      var session := Saved(found.value, p, now);
      ReplaceKeepsKeys(rows, SessionId, id, session, nextId);
      var k :| 0 <= k < |rows| && rows[k] == found.value;
      rows := Replace(rows, SessionId, id, session);
      FindMember(rows, SessionId, rows[k]);
      r := Some(session);
    }

    /** `delete`: true exactly when a session with that id was removed. */
    method Delete(id: Id) returns (removed: bool)
      requires Valid()
      modifies this
      ensures Valid() && nextId == old(nextId)
      ensures removed <==> old(FindById(id)).Some?
      ensures rows == Filter(old(rows), KeyNot(SessionId, id))
      ensures FindById(id).None?
      ensures |rows| == |old(rows)| - (if removed then 1 else 0)
    {
      removed := FindById(id).Some?;
      FilterKeepsKeys(rows, KeyNot(SessionId, id), SessionId, nextId);
      var kept := Filter(rows, KeyNot(SessionId, id));
      RemoveKeyCount(rows, SessionId, id);
      rows := kept;
    }

    /** `updateLastMessageAt`: a bulk update stamping `lastMessageAt` (and
        `updatedAt`) of the matching session; nothing for a missing id. */
    method UpdateLastMessageAt(id: Id, now: Instant)
      requires Valid()
      modifies this
      ensures Valid() && nextId == old(nextId)
      ensures old(FindById(id)).None? ==> rows == old(rows)
      ensures old(FindById(id)).Some? ==>
        rows == Replace(old(rows), SessionId, id,
                        old(FindById(id)).value.(lastMessageAt := Some(now), updatedAt := now))
    {
      var found := FindById(id);
      if found.Some? {
        var session := found.value.(lastMessageAt := Some(now), updatedAt := now);
        ReplaceKeepsKeys(rows, SessionId, id, session, nextId);
        rows := Replace(rows, SessionId, id, session);
      }
    }
  }


  /** `title || 'New conversation - ' + <local time>`: the locale rendering of
      the clock is a parameter. */
  function SessionTitle(title: Option<string>, localTime: string): (r: string)
    ensures title.Some? && title.value != "" ==> r == title.value
    ensures title.None? || title.value == "" ==> r == DefaultTitlePrefix + localTime
  {
    if title.Some? && title.value != "" then title.value else DefaultTitlePrefix + localTime
  }

  /** The session service over the session and agent tables. */
  class SessionService {
    const sessions: SessionRepository
    const agents: Agents.AgentRepository

    ghost predicate Valid()
      reads this, sessions, agents
    {
      sessions.Valid() && agents.Valid()
    }

    constructor (sessions: SessionRepository, agents: Agents.AgentRepository)
      requires sessions.Valid() && agents.Valid()
      ensures Valid() && this.sessions == sessions && this.agents == agents
    {
      this.sessions := sessions;
      this.agents := agents;
    }

    /** The agent checks shared by `create` and `findByAgent`: the agent must
        exist and belong to the user. */
    function AgentCheck(agentId: Id, userId: Id): (r: Result<()>)
      reads agents
      ensures r.Ok? <==> agents.FindById(agentId).Some? && agents.FindById(agentId).value.userId == userId
      ensures agents.FindById(agentId).None? ==> r == Err(Agents.AgentNotFoundMessage)
      ensures agents.FindById(agentId).Some? && agents.FindById(agentId).value.userId != userId ==>
        r == Err(Agents.AgentAccessDeniedMessage)
    {
      match agents.FindById(agentId)
      case None => Err(Agents.AgentNotFoundMessage)
      case Some(a) => if a.userId != userId then Err(Agents.AgentAccessDeniedMessage) else Ok(())
    }

    /** `create`: after the agent checks, a session of the user with that agent,
        titled, with empty metadata. */
    method Create(userId: Id, agentId: Id, title: Option<string>, localTime: string, now: Instant)
      returns (r: Result<Session>)
      requires Valid()
      modifies sessions
      ensures Valid()
      ensures AgentCheck(agentId, userId).Err? ==>
        r == Err(AgentCheck(agentId, userId).message) && sessions.rows == old(sessions.rows)
        && sessions.nextId == old(sessions.nextId)
      ensures AgentCheck(agentId, userId).Ok? ==>
        && r.Ok? && r.value.agentId == agentId && r.value.userId == userId
        && r.value.title == Some(SessionTitle(title, localTime))
        && r.value.metadata == Some(Obj(map[]))
        && sessions.rows == old(sessions.rows) + [r.value]
        && FindById(r.value.id, userId) == Ok(Some(r.value))
    {
      var check := AgentCheck(agentId, userId);
      if check.Err? {
        return Err(check.message);
      }
      var session := sessions.Create(agentId, userId, Some(SessionTitle(title, localTime)), Some(Obj(map[])), now);
      FindMember(sessions.rows, SessionId, session);
      r := Ok(session);
    }

    /** `findById`: the session if it exists and is the user's; another user's
        session is an access error. */
    function FindById(id: Id, userId: Id): (r: Result<Option<Session>>)
      reads sessions
      ensures r == Ok(None) <==> sessions.FindById(id).None?
      ensures r.Err? <==> sessions.FindById(id).Some? && sessions.FindById(id).value.userId != userId
      ensures r.Err? ==> r.message == SessionAccessDeniedMessage
      ensures r.Ok? && r.value.Some? ==> r.value.value.id == id && r.value.value.userId == userId
    {
      match sessions.FindById(id)
      case None => Ok(None)
      case Some(s) => if s.userId != userId then Err(SessionAccessDeniedMessage) else Ok(Some(s))
    }

    /** `findByAgent`: the agent checks, then the listing. */
    function FindByAgent(agentId: Id, userId: Id): (r: Result<seq<Session>>)
      reads sessions, agents
      ensures r.Err? <==> AgentCheck(agentId, userId).Err?
      ensures r.Err? ==> r.message == AgentCheck(agentId, userId).message
      ensures r.Ok? ==> forall s | s in r.value :: s in sessions.rows && s.agentId == agentId && s.userId == userId
      ensures r.Ok? ==> |r.value| <= ListingLimit && SortedBy(r.value, RecentFirst)
      ensures r.Ok? && Count(sessions.rows, ForAgent(agentId, userId)) <= ListingLimit ==>
        forall s | s in sessions.rows && s.agentId == agentId && s.userId == userId :: s in r.value
      ensures r.Ok? ==> |r.value| == if Count(sessions.rows, ForAgent(agentId, userId)) < ListingLimit
                                     then Count(sessions.rows, ForAgent(agentId, userId)) else ListingLimit
      ensures r.Ok? ==> forall s, t | s in r.value && t in sessions.rows && t.agentId == agentId &&
                                      t.userId == userId && t !in r.value :: RecentFirst(s, t)
      ensures r.Ok? ==> multiset(r.value) <= multiset(Filter(sessions.rows, ForAgent(agentId, userId)))
      ensures r.Ok? ==> r.value == sessions.FindByAgent(agentId, userId)
    {
      var check := AgentCheck(agentId, userId);
      if check.Err? then Err(check.message) else Ok(sessions.FindByAgent(agentId, userId))
    }

    /** `findByUser`. */
    function FindByUser(userId: Id): (r: seq<Session>)
      reads sessions
      ensures |r| <= ListingLimit && SortedBy(r, RecentFirst)
      ensures forall s | s in r :: s in sessions.rows && s.userId == userId
      ensures Count(sessions.rows, OwnedBy(userId)) <= ListingLimit ==>
        forall s | s in sessions.rows && s.userId == userId :: s in r
      ensures |r| == if Count(sessions.rows, OwnedBy(userId)) < ListingLimit
                     then Count(sessions.rows, OwnedBy(userId)) else ListingLimit
      ensures forall s, t | s in r && t in sessions.rows && t.userId == userId && t !in r :: RecentFirst(s, t)
      ensures multiset(r) <= multiset(Filter(sessions.rows, OwnedBy(userId)))
      ensures r == sessions.FindByUser(userId)
    {
      sessions.FindByUser(userId)
    }

    /** `update`: ownership first, then existence, then the repository update
        of title, metadata and active flag. */
    method Update(id: Id, userId: Id, title: Option<string>, metadata: Option<Json>,
                  isActive: Option<bool>, now: Instant) returns (r: Result<Session>)
      requires Valid()
      modifies sessions
      ensures Valid() && sessions.nextId == old(sessions.nextId)
      ensures old(FindById(id, userId)).Err? ==>
        r == Err(SessionAccessDeniedMessage) && sessions.rows == old(sessions.rows)
      ensures old(FindById(id, userId)) == Ok(None) ==>
        r == Err(SessionNotFoundMessage) && sessions.rows == old(sessions.rows)
      ensures old(FindById(id, userId)).Ok? && old(FindById(id, userId)).value.Some? ==>
        && r == Ok(Saved(old(sessions.FindById(id)).value,
                         SessionPatch(title, None, None, metadata, isActive, None), now))
        && sessions.rows == Replace(old(sessions.rows), SessionId, id, r.value)
        && FindById(id, userId) == Ok(Some(r.value))
    {
      var found := FindById(id, userId);
      if found.Err? {
        return Err(found.message);
      }
      if found.value.None? {
        return Err(SessionNotFoundMessage);
      }
      var updated := sessions.Update(id, SessionPatch(title, None, None, metadata, isActive, None), now);
      r := Ok(updated.value);
    }

    /** `delete`: ownership first, then existence, then removal. */
    method Delete(id: Id, userId: Id) returns (r: Result<()>)
      requires Valid()
      modifies sessions
      ensures Valid() && sessions.nextId == old(sessions.nextId)
      ensures old(FindById(id, userId)).Err? ==>
        r == Err(SessionAccessDeniedMessage) && sessions.rows == old(sessions.rows)
      ensures old(FindById(id, userId)) == Ok(None) ==>
        r == Err(SessionNotFoundMessage) && sessions.rows == old(sessions.rows)
      ensures old(FindById(id, userId)).Ok? && old(FindById(id, userId)).value.Some? ==>
        r == Ok(()) && sessions.rows == Filter(old(sessions.rows), KeyNot(SessionId, id))
    {
      var found := FindById(id, userId);
      if found.Err? {
        return Err(found.message);
      }
      if found.value.None? {
        return Err(SessionNotFoundMessage);
      }
      var _ := sessions.Delete(id);
      r := Ok(());
    }

    /** `updateLastMessageAt`. */
    method UpdateLastMessageAt(id: Id, now: Instant)
      requires Valid()
      modifies sessions
      ensures Valid() && sessions.nextId == old(sessions.nextId)
      ensures old(sessions.FindById(id)).None? ==> sessions.rows == old(sessions.rows)
      ensures old(sessions.FindById(id)).Some? ==>
        && sessions.rows == Replace(old(sessions.rows), SessionId, id,
                                    old(sessions.FindById(id)).value.(lastMessageAt := Some(now), updatedAt := now))
        && sessions.FindById(id) == Some(old(sessions.FindById(id)).value.(lastMessageAt := Some(now), updatedAt := now))
    {
      ghost var before := sessions.rows;
      sessions.UpdateLastMessageAt(id, now);
      if old(sessions.FindById(id)).Some? {
        var s := old(sessions.FindById(id)).value;
        var k :| 0 <= k < |before| && before[k] == s;
        FindMember(sessions.rows, SessionId, sessions.rows[k]);
      }
    }
  }
}
