/**
 * The `ai_coach_settings` collection: one record per domain, keyed by the
 * domain id (the collection's unique index on `domainId` is what makes a map
 * the right shape).  The record of the distinguished domain "system" holds
 * the provider credentials.
 */
module AISettings {

  /** Domain whose record carries the provider key, URL and model. */
  const SYSTEM_DOMAIN: string := "system"

  /** The five fields a settings record carries. */
  datatype Settings = Settings(useAI: bool, count: int, key: string, url: string, model: string)

  /** What a domain without a record gets, and what is stored for it on first read. */
  const DEFAULTS: Settings := Settings(true, 10, "", "", "")

  /** The settings `getAISettings` returns for `domainId`. */
  function SettingsOf(records: map<string, Settings>, domainId: string): Settings {
    if domainId in records then records[domainId] else DEFAULTS
  }

  /** The collection after `getAISettings(domainId)`: the default record is inserted on a miss. */
  function AfterGet(records: map<string, Settings>, domainId: string): map<string, Settings> {
    if domainId in records then records else records[domainId := DEFAULTS]
  }

  /** The collection after `setAICredential(domainId, ...)`: an upsert of the five fields. */
  function AfterSet(records: map<string, Settings>, domainId: string, s: Settings): map<string, Settings> {
    records[domainId := s]
  }

  class SettingsTable {
    var records: map<string, Settings>

    constructor ()
      ensures records == map[]
    {
      records := map[];
    }

    /** `getAISettings`: the domain's settings, creating the default record when there is none. */
    method GetAISettings(domainId: string) returns (s: Settings)
      modifies this
      ensures s == SettingsOf(old(records), domainId)
      ensures records == AfterGet(old(records), domainId)
    {
      if domainId !in records {
        records := records[domainId := DEFAULTS];
        s := DEFAULTS;
      } else {
        s := records[domainId];
      }
    }

    /** `setAICredential`: set exactly the five fields of the domain's record, inserting it if absent. */
    method SetAICredential(domainId: string, useAI: bool, count: int, key: string, url: string, model: string)
      modifies this
      ensures records == AfterSet(old(records), domainId, Settings(useAI, count, key, url, model))
    {
      records := records[domainId := Settings(useAI, count, key, url, model)];
    }
  }

  /** A first read of a new domain yields the defaults and stores them, and nothing else. */
  lemma GetCreatesDefaults(records: map<string, Settings>, domainId: string)
    requires domainId !in records
    ensures SettingsOf(records, domainId) == DEFAULTS
    ensures AfterGet(records, domainId).Keys == records.Keys + {domainId}
    ensures AfterGet(records, domainId)[domainId] == Settings(true, 10, "", "", "")
  {
  }

  /** Reading an existing domain returns its stored fields and writes nothing. */
  lemma GetExistingWritesNothing(records: map<string, Settings>, domainId: string)
    requires domainId in records
    ensures SettingsOf(records, domainId) == records[domainId]
    ensures AfterGet(records, domainId) == records
  {
  }

  /** Get-or-create is idempotent: a second read inserts nothing and returns the same values. */
  lemma GetIdempotent(records: map<string, Settings>, domainId: string)
    ensures AfterGet(AfterGet(records, domainId), domainId) == AfterGet(records, domainId)
    ensures SettingsOf(AfterGet(records, domainId), domainId) == SettingsOf(records, domainId)
  {
  }

  /** After `setAICredential(d, s)`, `getAISettings(d)` returns exactly `s` and writes nothing. */
  lemma SetThenGet(records: map<string, Settings>, domainId: string, s: Settings)
    ensures SettingsOf(AfterSet(records, domainId, s), domainId) == s
    ensures AfterGet(AfterSet(records, domainId, s), domainId) == AfterSet(records, domainId, s)
  {
  }

  /** Saving one domain leaves every other domain's settings as they were. */
  lemma SetIsolated(records: map<string, Settings>, domainId: string, other: string, s: Settings)
    requires other != domainId
    ensures SettingsOf(AfterSet(records, domainId, s), other) == SettingsOf(records, other)
    ensures (other in AfterSet(records, domainId, s)) == (other in records)
  {
  }
}
