/**
 * The `ai_conv` collection: one chat transcript per (user, problem, domain).
 * The collection is a map from document id to document held by a class; ids
 * are handed out in increasing order, as MongoDB ObjectIds created by one
 * process are, so the natural order of the collection is the order of ids.
 */
module AIConvModel {
  import opened Wrappers

  /** Document type tag of a conversation. */
  const TYPE_AI_CONV: int := 80

  /** The assistant greeting every new conversation starts with. */
  const GREETING: string := "hello, what can I help you with?"

  type ConvId = nat

  datatype Role = User | Assistant | System

  datatype Message = Message(role: Role, content: string, timestamp: int)

  /** The (uid, problemId, domainId) triple a conversation belongs to. */
  datatype Owner = Owner(uid: int, problemId: string, domainId: string)

  datatype ConvDoc = ConvDoc(
    id: ConvId,
    docType: int,
    domainId: string,
    uid: int,
    problemId: string,
    count: nat,
    messages: seq<Message>)
  {
    function OwnerOf(): Owner { Owner(uid, problemId, domainId) }
  }

  /** A filter passed to getMulti: it may name its own domain, which then wins over the argument. */
  datatype Query = Query(domainId: Option<string>, matches: ConvDoc -> bool)

  /** The document `add` inserts. */
  function Fresh(id: ConvId, owner: Owner, now: int): (d: ConvDoc)
    ensures d.id == id && d.OwnerOf() == owner && d.docType == TYPE_AI_CONV && d.count == 0
    ensures d.messages == [Message(Assistant, GREETING, now)]
  {
    ConvDoc(id, TYPE_AI_CONV, owner.domainId, owner.uid, owner.problemId, 0,
            [Message(Assistant, GREETING, now)])
  }

  /** The document with its last message dropped. */
  function PopLast(d: ConvDoc): (r: ConvDoc)
    requires |d.messages| > 0
    ensures |r.messages| == |d.messages| - 1
    ensures forall i :: 0 <= i < |r.messages| ==> r.messages[i] == d.messages[i]
    ensures r == d.(messages := r.messages)
  {
    d.(messages := d.messages[..|d.messages| - 1])
  }

  /** The document with one message pushed at the end. */
  function Appended(d: ConvDoc, m: Message): (r: ConvDoc)
    ensures |r.messages| == |d.messages| + 1 && r.messages[|d.messages|] == m
    ensures r.messages[..|d.messages|] == d.messages
    ensures r == d.(messages := r.messages)
  {
    d.(messages := d.messages + [m])
  }

  /** The document with its turn counter one higher. */
  function Bumped(d: ConvDoc): (r: ConvDoc)
    ensures r.count == d.count + 1 && r == d.(count := r.count)
  {
    d.(count := d.count + 1)
  }

  /**
   * The collection after `$push` on document `did`: unchanged when there is
   * no such document, as findOneAndUpdate then matches nothing.
   */
  function Pushed(docs: map<ConvId, ConvDoc>, did: ConvId, m: Message): map<ConvId, ConvDoc> {
    if did in docs then docs[did := Appended(docs[did], m)] else docs
  }

  /** The collection after `$inc: {count: 1}` on document `did`. */
  function Incremented(docs: map<ConvId, ConvDoc>, did: ConvId): map<ConvId, ConvDoc> {
    if did in docs then docs[did := Bumped(docs[did])] else docs
  }

  /** The first document among ids below `n` that belongs to `owner`: what findOne returns. */
  function FirstMatch(docs: map<ConvId, ConvDoc>, n: nat, owner: Owner): (r: Option<ConvId>)
    ensures r.Some? ==> r.value < n && r.value in docs && docs[r.value].OwnerOf() == owner
    ensures r.Some? ==> forall j :: j in docs && j < r.value ==> docs[j].OwnerOf() != owner
    ensures r.None? ==> forall j :: j in docs && j < n ==> docs[j].OwnerOf() != owner
  {
    if n == 0 then None
    else
      match FirstMatch(docs, n - 1, owner)
      case Some(k) => Some(k)
      case None => if n - 1 in docs && docs[n - 1].OwnerOf() == owner then Some(n - 1) else None
  }

  /** The documents with ids below `n` in domain `domainId` accepted by `keep`, newest first. */
  function Newest(docs: map<ConvId, ConvDoc>, n: nat, domainId: string, keep: ConvDoc -> bool): (r: seq<ConvDoc>)
    ensures forall i :: 0 <= i < |r| ==> r[i].id < n && r[i].id in docs && docs[r[i].id] == r[i]
    ensures forall i :: 0 <= i < |r| ==> r[i].domainId == domainId && keep(r[i])
    ensures forall i, j :: 0 <= i < j < |r| ==> r[i].id > r[j].id
    ensures forall k :: k in docs && k < n && docs[k].id == k && docs[k].domainId == domainId && keep(docs[k])
                        ==> docs[k] in r
  {
    if n == 0 then []
    else
      var d := n - 1;
      var rest := Newest(docs, d, domainId, keep);
      if d in docs && docs[d].id == d && docs[d].domainId == domainId && keep(docs[d]) then [docs[d]] + rest
      else rest
  }

  /** At most one conversation per (uid, problemId, domainId). */
  ghost predicate UniqueOwners(docs: map<ConvId, ConvDoc>) {
    forall j, k :: j in docs && k in docs && docs[j].OwnerOf() == docs[k].OwnerOf() ==> j == k
  }

  /** Every document is stored under its own id, and that id is below the next one to hand out. */
  ghost predicate Numbered(docs: map<ConvId, ConvDoc>, nextId: nat) {
    forall k :: k in docs ==> docs[k].id == k && k < nextId
  }

  /**
   * Every transcript holds at least one message and starts with an assistant
   * message: `add` seeds the greeting, `$push` only appends, and the page-load
   * repair only drops a trailing user message.
   */
  ghost predicate Seeded(docs: map<ConvId, ConvDoc>) {
    forall k :: k in docs ==> |docs[k].messages| > 0 && docs[k].messages[0].role == Assistant
  }

  /** Inserting a fresh conversation keeps every transcript seeded. */
  lemma FreshKeepsSeeded(docs: map<ConvId, ConvDoc>, id: ConvId, owner: Owner, now: int)
    requires Seeded(docs)
    ensures Seeded(docs[id := Fresh(id, owner, now)])
  {
  }

  /** Pushing a message onto any document keeps every transcript seeded. */
  lemma PushedKeepsSeeded(docs: map<ConvId, ConvDoc>, did: ConvId, m: Message)
    requires Seeded(docs)
    ensures Seeded(Pushed(docs, did, m))
  {
    if did in docs {
      var d := docs[did];
      assert Appended(d, m).messages[0] == Appended(d, m).messages[..|d.messages|][0] == d.messages[0];
    }
  }

  /** Counting a turn keeps every transcript seeded. */
  lemma IncrementedKeepsSeeded(docs: map<ConvId, ConvDoc>, did: ConvId)
    requires Seeded(docs)
    ensures Seeded(Incremented(docs, did))
  {
  }

  /** Dropping a trailing user message from a seeded transcript leaves it seeded. */
  lemma PopUserKeepsSeeded(docs: map<ConvId, ConvDoc>, k: ConvId)
    requires Seeded(docs) && k in docs
    requires docs[k].messages[|docs[k].messages| - 1].role == User
    ensures Seeded(docs[k := PopLast(docs[k])])
  {
    assert |docs[k].messages| >= 2;
  }

  class ConvTable {
    var docs: map<ConvId, ConvDoc>
    var nextId: ConvId

    /** Every document is stored under its own id, and that id was handed out already. */
    ghost predicate Valid()
      reads this
    {
      Numbered(docs, nextId)
    }

    constructor ()
      ensures Valid() && docs == map[] && nextId == 0
    {
      docs := map[];
      nextId := 0;
    }

    /** `AIConvModel.add`: insert a fresh conversation and return its id (the insert result). */
    method Add(uid: int, problemId: string, domainId: string, now: int) returns (insertedId: ConvId)
      requires Valid()
      modifies this
      ensures Valid()
      ensures insertedId == old(nextId) && insertedId !in old(docs)
      ensures nextId == old(nextId) + 1
      ensures docs == old(docs)[insertedId := Fresh(insertedId, Owner(uid, problemId, domainId), now)]
      ensures Seeded(old(docs)) ==> Seeded(docs)
    {
      if Seeded(docs) {
        FreshKeepsSeeded(docs, nextId, Owner(uid, problemId, domainId), now);
      }
      insertedId := nextId;
      docs := docs[insertedId := Fresh(insertedId, Owner(uid, problemId, domainId), now)];
      nextId := nextId + 1;
    }

    /**
     * `AIConvModel.remove`: pop the last message of the owner's conversation
     * and return the updated document; None when there is no conversation or
     * it has no message.
     */
    method Remove(domainId: string, uid: int, problemId: string) returns (r: Option<ConvDoc>)
      requires Valid()
      modifies this
      ensures Valid() && nextId == old(nextId)
      ensures match FirstMatch(old(docs), nextId, Owner(uid, problemId, domainId))
              case None => r.None? && docs == old(docs)
              case Some(k) =>
                if |old(docs)[k].messages| > 0 then
                  r == Some(PopLast(old(docs)[k])) && docs == old(docs)[k := PopLast(old(docs)[k])]
                else r.None? && docs == old(docs)
    {
      var found := FirstMatch(docs, nextId, Owner(uid, problemId, domainId));
      if found.Some? && |docs[found.value].messages| > 0 {
        var doc := PopLast(docs[found.value]);
        docs := docs[found.value := doc];
        r := Some(doc);
      } else {
        r := None;
      }
    }

    /** `AIConvModel.get`: the owner's conversation, or None.  Changes nothing. */
    method Get(uid: int, problemId: string, domainId: string) returns (r: Option<ConvDoc>)
      requires Valid()
      ensures r.Some? ==> r.value.id in docs && docs[r.value.id] == r.value
      ensures r.Some? ==> r.value.OwnerOf() == Owner(uid, problemId, domainId)
      ensures r.Some? ==> forall j :: j in docs && j < r.value.id ==> docs[j].OwnerOf() != r.value.OwnerOf()
      ensures r.None? <==> forall j :: j in docs ==> docs[j].OwnerOf() != Owner(uid, problemId, domainId)
    {
      var found := FirstMatch(docs, nextId, Owner(uid, problemId, domainId));
      r := if found.Some? then Some(docs[found.value]) else None;
    }

    /** `AIConvModel.edit`: push `{role, content, timestamp}` onto document `did`. */
    method Edit(did: ConvId, role: Role, content: string, now: int) returns (r: Option<ConvDoc>)
      requires Valid()
      modifies this
      ensures Valid() && nextId == old(nextId)
      ensures docs == Pushed(old(docs), did, Message(role, content, now))
      ensures r == if did in docs then Some(docs[did]) else None
      ensures Seeded(old(docs)) ==> Seeded(docs)
    {
      if Seeded(docs) {
        PushedKeepsSeeded(docs, did, Message(role, content, now));
      }
      docs := Pushed(docs, did, Message(role, content, now));
      r := if did in docs then Some(docs[did]) else None;
    }

    /** `AIConvModel.inc`: add one to the turn counter of document `did`. */
    method Inc(did: ConvId) returns (r: Option<ConvDoc>)
      requires Valid()
      modifies this
      ensures Valid() && nextId == old(nextId)
      ensures docs == Incremented(old(docs), did)
      ensures r == if did in docs then Some(docs[did]) else None
      ensures Seeded(old(docs)) ==> Seeded(docs)
    {
      if Seeded(docs) {
        IncrementedKeepsSeeded(docs, did);
      }
      docs := Incremented(docs, did);
      r := if did in docs then Some(docs[did]) else None;
    }

    /**
     * `AIConvModel.getMulti`: the documents of the domain (the query's own
     * domain when it names one) that the query accepts, in descending id order.
     */
    method GetMulti(domainId: string, query: Query) returns (r: seq<ConvDoc>)
      requires Valid()
      ensures forall i :: 0 <= i < |r| ==> r[i].id in docs && docs[r[i].id] == r[i] && query.matches(r[i])
      ensures forall i :: 0 <= i < |r| ==> r[i].domainId == query.domainId.GetOr(domainId)
      ensures forall i, j :: 0 <= i < j < |r| ==> r[i].id > r[j].id
      ensures forall k :: k in docs && docs[k].domainId == query.domainId.GetOr(domainId) && query.matches(docs[k])
                          ==> docs[k] in r
    {
      var d := if query.domainId.Some? then query.domainId.value else domainId;
      r := Newest(docs, nextId, d, query.matches);
    }
  }

  /** Removing from a conversation keeps every earlier message and every other field. */
  lemma RemoveKeepsPrefix(d: ConvDoc)
    requires |d.messages| > 0
    ensures PopLast(d).messages + [d.messages[|d.messages| - 1]] == d.messages
    ensures PopLast(d).count == d.count && PopLast(d).OwnerOf() == d.OwnerOf() && PopLast(d).id == d.id
  {
    assert d.messages[..|d.messages| - 1] + [d.messages[|d.messages| - 1]] == d.messages;
  }

  /** Appending then popping gives the transcript back. */
  lemma PopUndoesAppend(d: ConvDoc, m: Message)
    ensures PopLast(Appended(d, m)) == d
  {
    assert (d.messages + [m])[..|d.messages|] == d.messages;
  }
}
