/** Chat messages and the `messages` table: listing a session's messages in
    order, partial updates, deletion and counting. */
module Messages {
  import opened Wrappers
  import opened Tables
  import opened Json

  datatype Role = User | Assistant | System

  datatype Message = Message(
    id: Id, sessionId: Id, role: Role, content: string, metadata: Option<Json>,
    tokensUsed: Option<int>, processingTimeMs: Option<int>, error: Option<string>,
    parentMessageId: Option<Id>, createdAt: Instant, updatedAt: Instant)

  function MessageId(m: Message): Id { m.id }

  function InSession(sessionId: Id): Message -> bool {
    (m: Message) => m.sessionId == sessionId
  }

  /** `order: [['createdAt', 'ASC']]`. */
  predicate OlderFirst(a: Message, b: Message) {
    a.createdAt <= b.createdAt
  }

  lemma OlderFirstOrders()
    ensures TotalPreorder(OlderFirst)
  {
  }

  const DefaultListingLimit: nat := 1000

  /** `limit || 1000`: an absent or zero limit means 1000. */
  function EffectiveLimit(limit: Option<nat>): (n: nat)
    ensures n > 0
    ensures limit.Some? && limit.value > 0 ==> n == limit.value
    ensures limit.None? || limit.value == 0 ==> n == DefaultListingLimit
  {
    if limit.Some? && limit.value != 0 then limit.value else DefaultListingLimit
  }

  /** The fields `message.update(data)` may set. */
  datatype MessagePatch = MessagePatch(content: Option<string>, metadata: Option<Json>, error: Option<string>)

  /** The message after `message.update(patch)`: only content, metadata and
      error can change, and `updatedAt` only when one of them does. */
  function Saved(m: Message, p: MessagePatch, now: Instant): (r: Message)
    ensures r.(content := m.content, metadata := m.metadata, error := m.error, updatedAt := m.updatedAt) == m
    ensures r.content == p.content.GetOr(m.content)
    ensures r.metadata == if p.metadata.Some? then p.metadata else m.metadata
    ensures r.error == if p.error.Some? then p.error else m.error
    ensures r.updatedAt == if r == m then m.updatedAt else now
  {
    var t := m.(content := p.content.GetOr(m.content),
                metadata := if p.metadata.Some? then p.metadata else m.metadata,
                error := if p.error.Some? then p.error else m.error);
    if t == m then m else t.(updatedAt := now)
  }

  /** The number of rows of a session after one more row was appended. */
  lemma CountAfterAppend(rows: seq<Message>, m: Message, sessionId: Id)
    ensures Count(rows + [m], InSession(sessionId)) ==
      Count(rows, InSession(sessionId)) + (if m.sessionId == sessionId then 1 else 0)
  {
    FilterAppend(rows, m, InSession(sessionId));
  }

  /** The `messages` table. */
  class MessageRepository {
    var rows: seq<Message>
    var nextId: Id

    ghost predicate Valid()
      reads this
    {
      UniqueKeys(rows, MessageId) && KeysBelow(rows, MessageId, nextId)
    }

    constructor ()
      ensures Valid() && rows == [] && nextId == 0
    {
      rows := [];
      nextId := 0;
    }

    /** `countBySession`: how many stored messages belong to the session. */
    function CountBySession(sessionId: Id): (n: nat)
      reads this
      ensures n == |Filter(rows, InSession(sessionId))|
      ensures n <= |rows|
    {
      Count(rows, InSession(sessionId))
    }

    /** `create`: a new message stamped `now`, metadata `{}` when none is given;
        its session then counts one message more and every other session the
        same. */
    method Create(sessionId: Id, role: Role, content: string, metadata: Option<Json>,
                  tokensUsed: Option<int>, processingTimeMs: Option<int>, error: Option<string>,
                  parentMessageId: Option<Id>, now: Instant) returns (m: Message)
      requires Valid()
      modifies this
      ensures Valid()
      ensures m == Message(old(nextId), sessionId, role, content,
                           if metadata.Some? then metadata else Some(Obj(map[])),
                           tokensUsed, processingTimeMs, error, parentMessageId, now, now)
      ensures rows == old(rows) + [m] && nextId == old(nextId) + 1
      ensures forall s :: CountBySession(s) == old(CountBySession(s)) + (if s == sessionId then 1 else 0)
    {
      m := Message(nextId, sessionId, role, content,
                   if metadata.Some? then metadata else Some(Obj(map[])),
                   tokensUsed, processingTimeMs, error, parentMessageId, now, now);
      AppendKeepsKeys(rows, MessageId, m, nextId);
      ghost var before := rows;
      rows := rows + [m];
      nextId := nextId + 1;
      forall s ensures CountBySession(s) == Count(before, InSession(s)) + (if s == sessionId then 1 else 0) {
        CountAfterAppend(before, m, s);
      }
    }

    /** `findById`. */
    function FindById(id: Id): (r: Option<Message>)
      reads this
      ensures r.Some? ==> r.value in rows && r.value.id == id
      ensures r.None? <==> forall i | 0 <= i < |rows| :: rows[i].id != id
    {
      Find(rows, MessageId, id)
    }

    /** `findBySession`: the session's messages, oldest first, at most the
        effective limit of them, the oldest ones kept. */
    function FindBySession(sessionId: Id, limit: Option<nat>): (r: seq<Message>)
      reads this
      ensures |r| <= EffectiveLimit(limit)
      ensures forall m | m in r :: m in rows && m.sessionId == sessionId
      ensures SortedBy(r, OlderFirst)
      ensures |r| == if CountBySession(sessionId) < EffectiveLimit(limit)
                     then CountBySession(sessionId) else EffectiveLimit(limit)
      ensures forall m, n | m in r && n in rows && n.sessionId == sessionId && n !in r :: OlderFirst(m, n)
      ensures CountBySession(sessionId) <= EffectiveLimit(limit) ==>
        forall n | n in rows && n.sessionId == sessionId :: n in r
      ensures multiset(r) <= multiset(Filter(rows, InSession(sessionId)))
    {
      var matching := Filter(rows, InSession(sessionId));
      var sorted := Sort(matching, OlderFirst);
      OlderFirstOrders();
      SortSorted(matching, OlderFirst);
      TakeSorted(sorted, EffectiveLimit(limit), OlderFirst);
      TakeRanks(sorted, EffectiveLimit(limit), OlderFirst);
      assert |sorted| == |matching| by {
        assert |multiset(sorted)| == |multiset(matching)|;
      }
      var r := Take(sorted, EffectiveLimit(limit));
      assert sorted == r + sorted[|r|..];
      assert multiset(sorted) == multiset(r) + multiset(sorted[|r|..]);
      forall m | m in r ensures m in rows && m.sessionId == sessionId {
        assert m in sorted && m in multiset(sorted);
        assert InSession(sessionId)(m);
      }
      forall n | n in rows && n.sessionId == sessionId ensures n in sorted {
        assert InSession(sessionId)(n);
        assert n in matching && n in multiset(matching);
      }
      r
    }

    /** `update`: none for a missing message, which is left alone; otherwise the
        message with the supplied fields set, saved in place. */
    method Update(id: Id, p: MessagePatch, now: Instant) returns (r: Option<Message>)
      requires Valid()
      modifies this
      ensures Valid() && nextId == old(nextId)
      ensures old(FindById(id)).None? ==> r.None? && rows == old(rows)
      ensures old(FindById(id)).Some? ==>
        && r == Some(Saved(old(FindById(id)).value, p, now))
        && rows == Replace(old(rows), MessageId, id, r.value)
        && FindById(id) == r
    {
      var found := FindById(id);
      if found.None? {
        return None;
      }
      var message := Saved(found.value, p, now);
      ReplaceKeepsKeys(rows, MessageId, id, message, nextId);
      var k :| 0 <= k < |rows| && rows[k] == found.value;
      rows := Replace(rows, MessageId, id, message);
      FindMember(rows, MessageId, rows[k]);
      r := Some(message);
    }

    /** `delete`: true exactly when a message with that id was removed. */
    method Delete(id: Id) returns (removed: bool)
      requires Valid()
      modifies this
      ensures Valid() && nextId == old(nextId)
      ensures removed <==> old(FindById(id)).Some?
      ensures rows == Filter(old(rows), KeyNot(MessageId, id))
      ensures FindById(id).None?
      ensures |rows| == |old(rows)| - (if removed then 1 else 0)
    {
      removed := FindById(id).Some?;
      FilterKeepsKeys(rows, KeyNot(MessageId, id), MessageId, nextId);
      RemoveKeyCount(rows, MessageId, id);
      rows := Filter(rows, KeyNot(MessageId, id));
    }
  }
}
