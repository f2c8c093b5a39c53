/**
 * The plugin entry (`ai-coach/index.ts`): `getConversation` fetches or repairs
 * the transcript shown on a problem page, and the patched problem-page
 * handler calls it in a bounded retry loop.
 */
module CoachPlugin {
  import opened Wrappers
  import opened AIConvModel
  import opened AISettings

  /** Thrown when the last message of an empty transcript is read. */
  const ROLE_READ_ERROR: string := "Cannot read properties of undefined (reading 'role')"
  /** Thrown when `maxCount` is set on the null that `remove` returned. */
  const SET_MAXCOUNT_ERROR: string := "Cannot set properties of null (setting 'maxCount')"
  /** Attempts after the first one. */
  const RETRIES: nat := 3

  /**
   * What `getConversation` returns: the no-AI marker, the insert result of a
   * new conversation, the (repaired) stored conversation, each of the last two
   * tagged with `maxCount`, or `{success: false, error}`.
   */
  datatype ConvView = NoAI | Inserted(insertedId: ConvId, maxCount: int) | Loaded(doc: ConvDoc, maxCount: int)
                    | Failed(error: string)

  /** The last message of a non-empty transcript. */
  function Last(d: ConvDoc): Message
    requires |d.messages| > 0
  {
    d.messages[|d.messages| - 1]
  }

  /** The conversation `getConversation` looks up: the first one of the triple in natural order. */
  function Found(docs: map<ConvId, ConvDoc>, nextId: nat, uid: int, problemId: string, domainId: string)
    : Option<ConvId>
  {
    FirstMatch(docs, nextId, Owner(uid, problemId, domainId))
  }

  /** What `getConversation` yields on the given stores. */
  function ViewAfter(docs: map<ConvId, ConvDoc>, nextId: nat, records: map<string, Settings>, uid: int,
                     problemId: string, domainId: string): ConvView
  {
    var aiSet := SettingsOf(records, domainId);
    var found := Found(docs, nextId, uid, problemId, domainId);
    if !aiSet.useAI then NoAI
    else if found.None? then Inserted(nextId, aiSet.count)
    else
      var doc := docs[found.value];
      if |doc.messages| == 0 then Failed(ROLE_READ_ERROR)
      else if Last(doc).role == User then Loaded(PopLast(doc), aiSet.count)
      else Loaded(doc, aiSet.count)
  }

  /** The conversation collection after `getConversation`. */
  function DocsAfter(docs: map<ConvId, ConvDoc>, nextId: nat, records: map<string, Settings>, uid: int,
                     problemId: string, domainId: string, now: int): map<ConvId, ConvDoc>
  {
    var found := Found(docs, nextId, uid, problemId, domainId);
    if !SettingsOf(records, domainId).useAI then docs
    else if found.None? then docs[nextId := Fresh(nextId, Owner(uid, problemId, domainId), now)]
    else
      var doc := docs[found.value];
      if |doc.messages| > 0 && Last(doc).role == User then docs[found.value := PopLast(doc)] else docs
  }

  /** The next id to hand out after `getConversation`: one higher exactly when it inserted. */
  function NextAfter(docs: map<ConvId, ConvDoc>, nextId: nat, records: map<string, Settings>, uid: int,
                     problemId: string, domainId: string): nat
  {
    if SettingsOf(records, domainId).useAI && Found(docs, nextId, uid, problemId, domainId).None? then nextId + 1
    else nextId
  }

  /** `getConversation(uid, problemId, domainId)`. */
  method GetConversation(convs: ConvTable, settings: SettingsTable, uid: int, problemId: string, domainId: string,
                         now: int) returns (view: ConvView)
    requires convs.Valid()
    modifies convs, settings
    ensures convs.Valid()
    ensures settings.records == AfterGet(old(settings.records), domainId)
    ensures view == ViewAfter(old(convs.docs), old(convs.nextId), old(settings.records), uid, problemId, domainId)
    ensures convs.docs == DocsAfter(old(convs.docs), old(convs.nextId), old(settings.records), uid, problemId,
                                    domainId, now)
    ensures convs.nextId == NextAfter(old(convs.docs), old(convs.nextId), old(settings.records), uid, problemId,
                                      domainId)
    ensures UniqueOwners(old(convs.docs)) ==> UniqueOwners(convs.docs)
    ensures Seeded(old(convs.docs)) ==> Seeded(convs.docs)
  {
    ghost var docs0, next0, records0 := convs.docs, convs.nextId, settings.records;
    if UniqueOwners(docs0) {
      ConversationKeepsUniqueOwners(docs0, next0, records0, uid, problemId, domainId, now);
    }
    if Seeded(docs0) {
      SeededConversation(docs0, next0, records0, uid, problemId, domainId, now);
    }
    var aiSet := settings.GetAISettings(domainId);
    if !aiSet.useAI {
      return NoAI;
    }
    var maxCount := aiSet.count;
    var hist := convs.Get(uid, problemId, domainId);
    if hist.None? {
      var insertedId := convs.Add(uid, problemId, domainId, now);
      return Inserted(insertedId, maxCount);
    }
    var doc := hist.value;
    if |doc.messages| == 0 {
      return Failed(ROLE_READ_ERROR);
    }
    if Last(doc).role == User {
      var removed := convs.Remove(doc.domainId, doc.uid, doc.problemId);
      view := if removed.Some? then Loaded(removed.value, maxCount) else Failed(SET_MAXCOUNT_ERROR);
    } else {
      view := Loaded(doc, maxCount);
    }
  }

  /** With AI switched off for the domain, the page gets the marker and no conversation is created or changed. */
  lemma NoAIChangesNothing(docs: map<ConvId, ConvDoc>, nextId: nat, records: map<string, Settings>, uid: int,
                           problemId: string, domainId: string, now: int)
    requires !SettingsOf(records, domainId).useAI
    ensures ViewAfter(docs, nextId, records, uid, problemId, domainId) == NoAI
    ensures DocsAfter(docs, nextId, records, uid, problemId, domainId, now) == docs
    ensures NextAfter(docs, nextId, records, uid, problemId, domainId) == nextId
  {
  }

  /** The owner's stored conversation is the one found, when each triple owns at most one. */
  lemma FoundIsTheOwners(docs: map<ConvId, ConvDoc>, nextId: nat, k: ConvId)
    requires Numbered(docs, nextId) && UniqueOwners(docs) && k in docs
    ensures Found(docs, nextId, docs[k].uid, docs[k].problemId, docs[k].domainId) == Some(k)
  {
  }

  /**
   * A triple without a conversation gets exactly one new one, seeded with the
   * greeting, and the page gets its id with the domain's budget as `maxCount`.
   */
  lemma MissingConversationAdded(docs: map<ConvId, ConvDoc>, nextId: nat, records: map<string, Settings>, uid: int,
                                 problemId: string, domainId: string, now: int)
    requires Numbered(docs, nextId) && SettingsOf(records, domainId).useAI
    requires forall k :: k in docs ==> docs[k].OwnerOf() != Owner(uid, problemId, domainId)
    ensures var after := DocsAfter(docs, nextId, records, uid, problemId, domainId, now);
            && ViewAfter(docs, nextId, records, uid, problemId, domainId)
               == Inserted(nextId, SettingsOf(records, domainId).count)
            && NextAfter(docs, nextId, records, uid, problemId, domainId) == nextId + 1
            && after.Keys == docs.Keys + {nextId} && nextId !in docs
            && after[nextId] == Fresh(nextId, Owner(uid, problemId, domainId), now)
            && (forall k :: k in docs ==> after[k] == docs[k])
  {
  }

  /**
   * A stored conversation whose last message is the user's loses exactly that
   * message, and the page gets the repaired document with `maxCount`.
   */
  lemma RepairPopsLastUser(docs: map<ConvId, ConvDoc>, nextId: nat, records: map<string, Settings>, k: ConvId,
                           now: int)
    requires Numbered(docs, nextId) && UniqueOwners(docs) && k in docs && SettingsOf(records, docs[k].domainId).useAI
    requires |docs[k].messages| > 0 && Last(docs[k]).role == User
    ensures var d := docs[k];
            && ViewAfter(docs, nextId, records, d.uid, d.problemId, d.domainId)
               == Loaded(PopLast(d), SettingsOf(records, d.domainId).count)
            && DocsAfter(docs, nextId, records, d.uid, d.problemId, d.domainId, now) == docs[k := PopLast(d)]
            && PopLast(d).messages + [Last(d)] == d.messages
            && NextAfter(docs, nextId, records, d.uid, d.problemId, d.domainId) == nextId
  {
    FoundIsTheOwners(docs, nextId, k);
    RemoveKeepsPrefix(docs[k]);
  }

  /**
   * The repair pops one message per page load: a conversation ending in two
   * user messages still ends in a user message in the store it leaves.
   */
  lemma RepairPopsOnlyOne(docs: map<ConvId, ConvDoc>, nextId: nat, records: map<string, Settings>, k: ConvId,
                          now: int)
    requires Numbered(docs, nextId) && UniqueOwners(docs) && k in docs && SettingsOf(records, docs[k].domainId).useAI
    requires var m := docs[k].messages; |m| >= 2 && m[|m| - 1].role == User && m[|m| - 2].role == User
    ensures var d := docs[k];
            var after := DocsAfter(docs, nextId, records, d.uid, d.problemId, d.domainId, now);
            k in after && |after[k].messages| > 0 && Last(after[k]).role == User
  {
    FoundIsTheOwners(docs, nextId, k);
  }

  /** A stored conversation whose last message is not the user's is shown as stored and left unchanged. */
  lemma OtherLastUnchanged(docs: map<ConvId, ConvDoc>, nextId: nat, records: map<string, Settings>, k: ConvId,
                           now: int)
    requires Numbered(docs, nextId) && UniqueOwners(docs) && k in docs && SettingsOf(records, docs[k].domainId).useAI
    requires |docs[k].messages| > 0 && Last(docs[k]).role != User
    ensures var d := docs[k];
            && ViewAfter(docs, nextId, records, d.uid, d.problemId, d.domainId)
               == Loaded(d, SettingsOf(records, d.domainId).count)
            && DocsAfter(docs, nextId, records, d.uid, d.problemId, d.domainId, now) == docs
            && NextAfter(docs, nextId, records, d.uid, d.problemId, d.domainId) == nextId
  {
    FoundIsTheOwners(docs, nextId, k);
  }

  /** `getConversation` keeps the ids in order and at most one conversation per triple. */
  lemma ConversationKeepsUniqueOwners(docs: map<ConvId, ConvDoc>, nextId: nat, records: map<string, Settings>,
                                      uid: int, problemId: string, domainId: string, now: int)
    requires Numbered(docs, nextId) && UniqueOwners(docs)
    ensures var after := DocsAfter(docs, nextId, records, uid, problemId, domainId, now);
            && Numbered(after, NextAfter(docs, nextId, records, uid, problemId, domainId))
            && UniqueOwners(after)
  {
  }

  /**
   * On seeded transcripts `getConversation` keeps them seeded and never
   * yields the error for an empty transcript: that branch is unreachable
   * from the states `add`, `edit`, `inc` and the repair produce.
   */
  lemma SeededConversation(docs: map<ConvId, ConvDoc>, nextId: nat, records: map<string, Settings>, uid: int,
                           problemId: string, domainId: string, now: int)
    requires Seeded(docs)
    ensures Seeded(DocsAfter(docs, nextId, records, uid, problemId, domainId, now))
    ensures !ViewAfter(docs, nextId, records, uid, problemId, domainId).Failed?
  {
    var found := Found(docs, nextId, uid, problemId, domainId);
    if SettingsOf(records, domainId).useAI {
      if found.None? {
        FreshKeepsSeeded(docs, nextId, Owner(uid, problemId, domainId), now);
      } else if Last(docs[found.value]).role == User {
        PopUserKeepsSeeded(docs, found.value);
      }
    }
  }

  /**
   * The retry loop of the patched problem-page `get`, run over the values its
   * successive `getConversation` calls yield (`None` standing for a falsy,
   * undefined result): take the first value, and while it is undefined and
   * retries are left, wait a second and take the next one.
   */
  method Retry(fetches: seq<Option<ConvView>>) returns (conversation: Option<ConvView>, attempts: nat)
    requires |fetches| == RETRIES + 1
    ensures 1 <= attempts <= RETRIES + 1
    ensures conversation == fetches[attempts - 1]
    ensures forall i :: 0 <= i < attempts - 1 ==> fetches[i].None?
    ensures conversation.None? ==> attempts == RETRIES + 1
    ensures fetches[0].Some? ==> attempts == 1
  {
    conversation := fetches[0];
    attempts := 1;
    var retries := RETRIES;
    while conversation.None? && retries > 0
      invariant 0 <= retries <= RETRIES && attempts == RETRIES + 1 - retries
      invariant conversation == fetches[attempts - 1]
      invariant forall i :: 0 <= i < attempts - 1 ==> fetches[i].None?
    {
      conversation := fetches[attempts];
      attempts := attempts + 1;
      retries := retries - 1;
    }
  }

  /**
   * The patched problem-page `get` on the store: `getConversation` always
   * yields an object, so the retry loop stops after the first call, and the
   * page receives that call's view.
   */
  method PageLoad(convs: ConvTable, settings: SettingsTable, uid: int, pid: string, domainId: string, now: int)
    returns (conversation: Option<ConvView>, attempts: nat)
    requires convs.Valid()
    modifies convs, settings
    ensures convs.Valid()
    ensures settings.records == AfterGet(old(settings.records), domainId)
    ensures attempts == 1
    ensures conversation == Some(ViewAfter(old(convs.docs), old(convs.nextId), old(settings.records), uid, pid,
                                           domainId))
    ensures convs.docs == DocsAfter(old(convs.docs), old(convs.nextId), old(settings.records), uid, pid, domainId, now)
    ensures convs.nextId == NextAfter(old(convs.docs), old(convs.nextId), old(settings.records), uid, pid, domainId)
    ensures UniqueOwners(old(convs.docs)) ==> UniqueOwners(convs.docs)
    ensures Seeded(old(convs.docs)) ==> Seeded(convs.docs)
  {
    var view := GetConversation(convs, settings, uid, pid, domainId, now);
    conversation := Some(view);
    attempts := 1;
  }
}
