/** The session manager of cc_launcher/core/session.py: choosing between continuing the
    last session of a platform and creating a new one, the older fallback creator with its
    static prefix table, and the version-1 session store with its cleanup. Files are
    modelled as fields: `store` is the v1 session-mappings.json (None while it does not
    exist) and `lastSessions` the per-platform last_session_<platform>.json files. */
module Session {
  import opened Wrappers
  import opened Text
  import opened Assoc
  import opened Config
  import opened SessionMapping

  /** `PLATFORM_PREFIXES`, fixed and independent of the platform registry. */
  const StaticPrefixes: seq<(string, string)> := [
    ("gaccode", "01"), ("deepseek", "02"), ("kimi", "03"),
    ("siliconflow", "04"), ("local_proxy", "05"), ("vanchin", "06")]

  /** A session record as the manager builds it and stores it. `prefixUuid` is absent on
      records of the fallback creator; `createdTimestamp` may be absent on old records. */
  datatype SessionInfo = SessionInfo(
    sessionId: string, standardUuid: string, prefixUuid: Option<string>, platform: string,
    createdAt: int, createdTimestamp: Option<int>, lastActive: int)

  /** The v1 store document. */
  datatype V1Store = V1Store(
    version: string, created: Option<int>, sessions: map<string, SessionInfo>,
    lastUpdated: Option<int>, lastCleanup: Option<int>)

  /** `_load_session_mappings`: the stored document, or a fresh empty version-1 one. */
  function LoadSessionMappings(store: Option<V1Store>, now: int): (doc: V1Store)
    ensures store.Some? ==> doc == store.value
    ensures store.None? ==> doc.version == "1.0" && doc.created == Some(now) && doc.sessions == map[]
                            && doc.lastUpdated.None? && doc.lastCleanup.None?
  {
    store.GetOr(V1Store("1.0", Some(now), map[], None, None))
  }

  /** `get_session_info`: the record stored under this id, if any. */
  function SessionInfoIn(store: Option<V1Store>, sessionId: string): (r: Option<SessionInfo>)
    ensures r.Some? <==> store.Some? && sessionId in store.value.sessions
    ensures r.Some? ==> r.value == store.value.sessions[sessionId]
  {
    if store.Some? && sessionId in store.value.sessions then Some(store.value.sessions[sessionId]) else None
  }

  /** `get_last_session`: the platform's last-session file names a non-empty id, and the v1 store
      holds a record under that id. */
  function LastSessionOf(store: Option<V1Store>, lastSessions: map<string, SessionInfo>, platform: string)
    : (r: Option<SessionInfo>)
    ensures r.Some? <==> platform in lastSessions && lastSessions[platform].sessionId != ""
                         && store.Some? && lastSessions[platform].sessionId in store.value.sessions
    ensures r.Some? ==> r.value == store.value.sessions[lastSessions[platform].sessionId]
  {
    if platform in lastSessions && lastSessions[platform].sessionId != "" then
      SessionInfoIn(store, lastSessions[platform].sessionId)
    else None
  }

  /** The v1 document after `_save_session_mapping` recorded one session. */
  function SavedRecord(store: Option<V1Store>, sessionId: string, info: SessionInfo, now: int): (doc: V1Store)
    ensures doc.sessions.Keys == LoadSessionMappings(store, now).sessions.Keys + {sessionId}
    ensures doc.sessions[sessionId] == info
    ensures forall k :: k in doc.sessions && k != sessionId ==> doc.sessions[k] == LoadSessionMappings(store, now).sessions[k]
    ensures doc.lastUpdated == Some(now)
    ensures var before := LoadSessionMappings(store, now);
      doc.version == before.version && doc.created == before.created && doc.lastCleanup == before.lastCleanup
  {
    var doc := LoadSessionMappings(store, now);
    doc.(sessions := doc.sessions[sessionId := info], lastUpdated := Some(now))
  }

  /** The fallback session id: the static prefix (case-sensitive, "01" for an unknown
      platform) in place of the first two characters of the base UUID. */
  function FallbackSessionId(platform: string, baseUuid: string): (id: string)
    ensures platform !in Keys(StaticPrefixes) ==> id == TagUuid("01", baseUuid)
    ensures |id| >= 2
    ensures platform in Keys(StaticPrefixes) ==> (platform, id[..2]) in StaticPrefixes
    ensures id[2..] == DropFirst(baseUuid, 2)
  {
    var prefix := Get(StaticPrefixes, platform).GetOr("01");
    StaticPrefixesHaveTwoCharacters(platform);
    TagUuid(prefix, baseUuid)
  }

  /** Every prefix of the static table has two characters. */
  lemma StaticPrefixesHaveTwoCharacters(platform: string)
    ensures |Get(StaticPrefixes, platform).GetOr("01")| == 2
  {
    assert forall i :: 0 <= i < |StaticPrefixes| ==> |StaticPrefixes[i].1| == 2;
  }

  /** The fallback's record: both ids, the platform, and `now` for its three times. */
  function FallbackInfo(platform: string, baseUuid: string, now: int): SessionInfo {
    SessionInfo(FallbackSessionId(platform, baseUuid), baseUuid, None, platform, now, Some(now), now)
  }

  /** The v1 document after the fallback's two saves. */
  function FallbackStore(store: Option<V1Store>, platform: string, baseUuid: string, now: int): V1Store {
    var info := FallbackInfo(platform, baseUuid, now);
    SavedRecord(Some(SavedRecord(store, info.sessionId, info, now)), baseUuid, info, now)
  }

  /** The fallback stores one record under both the prefixed and the base id; nothing
      else in the store changes. */
  lemma FallbackStoresBothIds(store: Option<V1Store>, platform: string, baseUuid: string, now: int)
    ensures var doc := FallbackStore(store, platform, baseUuid, now);
      var info := FallbackInfo(platform, baseUuid, now);
      var before := LoadSessionMappings(store, now);
      && doc.sessions.Keys == before.sessions.Keys + {info.sessionId, baseUuid}
      && doc.sessions[info.sessionId] == info && doc.sessions[baseUuid] == info
      && (forall k :: k in before.sessions && k != info.sessionId && k != baseUuid ==> doc.sessions[k] == before.sessions[k])
      && SessionInfoIn(Some(doc), info.sessionId) == Some(info)
      && SessionInfoIn(Some(doc), baseUuid) == Some(info)
  {
  }

  /** The static table and the mapper's generated table disagree on the built-in platforms:
      the mapper numbers the sorted keys, so deepseek gets 01 and gaccode 02. */
  lemma StaticPrefixesDisagreeWithGenerated()
    ensures var table := PrefixTable(PlatformNames(DefaultPlatformsConfig));
      && PrefixFor(table, "deepseek") == "01" && Get(StaticPrefixes, "deepseek") == Some("02")
      && PrefixFor(table, "gaccode") == "02" && Get(StaticPrefixes, "gaccode") == Some("01")
  {
    DefaultPrefixTable();
    GeneratedEntries();
    StaticEntries();
  }

  lemma GeneratedEntries()
    ensures var table := [("deepseek", "01"), ("gaccode", "02")];
      PrefixFor(table, "deepseek") == "01" && PrefixFor(table, "gaccode") == "02"
  {
    LowerOfLowercase("deepseek");
    LowerOfLowercase("gaccode");
  }

  lemma StaticEntries()
    ensures Get(StaticPrefixes, "deepseek") == Some("02") && Get(StaticPrefixes, "gaccode") == Some("01")
  {
    assert StaticPrefixes[0] == ("gaccode", "01") && StaticPrefixes[1] == ("deepseek", "02");
  }

  /** The static lookup is case-sensitive where the mapper lower-cases: "DeepSeek" falls
      back to 01 statically, and finds deepseek's 01 in the generated table. */
  lemma StaticLookupIsCaseSensitive()
    ensures PrefixFor(PrefixTable(PlatformNames(DefaultPlatformsConfig)), "DeepSeek") == "01"
    ensures Get(StaticPrefixes, "DeepSeek") == None && FallbackSessionId("DeepSeek", "abcd") == "01cd"
  {
    DefaultPrefixTable();
    LowerDeepSeek();
    assert Get([("deepseek", "01"), ("gaccode", "02")], "deepseek") == Some("01");
    StaticTableMisses("DeepSeek");
    assert TagUuid("01", "abcd") == "01cd";
  }

  lemma LowerDeepSeek()
    ensures Lower("DeepSeek") == "deepseek"
  {
    var d := Lower("DeepSeek");
    assert d[0] == 'd' && d[4] == 's';
  }

  /** A name whose first character starts no static key is not in the table. */
  lemma StaticTableMisses(name: string)
    requires name != [] && name[0] !in {'g', 'd', 'k', 's', 'l', 'v'}
    ensures Get(StaticPrefixes, name) == None
  {
    assert forall i :: 0 <= i < |StaticPrefixes| ==> StaticPrefixes[i].0[0] in {'g', 'd', 'k', 's', 'l', 'v'};
    assert name !in Keys(StaticPrefixes);
  }

  /** The v1 ids whose `created_timestamp` (0 when missing) is before the cutoff. */
  function OldSessionIds(sessions: map<string, SessionInfo>, cutoffTime: int): set<string> {
    set k | k in sessions && sessions[k].createdTimestamp.GetOr(0) < cutoffTime
  }

  /** `time.time() - max_age_days * 24 * 60 * 60`. */
  function V1Cutoff(maxAgeDays: int, now: int): int {
    now - maxAgeDays * 24 * 60 * 60
  }

  /** The v1 document after cleanup, as written when something was removed. */
  function CleanedStore(doc: V1Store, cutoffTime: int, now: int): (r: V1Store)
    ensures forall k :: k in r.sessions ==> r.sessions[k].createdTimestamp.GetOr(0) >= cutoffTime
    ensures forall k :: k in doc.sessions && doc.sessions[k].createdTimestamp.GetOr(0) >= cutoffTime ==>
      k in r.sessions && r.sessions[k] == doc.sessions[k]
    ensures r.sessions.Keys <= doc.sessions.Keys
    ensures r.lastCleanup == Some(now) && r.version == doc.version && r.lastUpdated == doc.lastUpdated
    ensures r.created == doc.created
  {
    doc.(sessions := doc.sessions - OldSessionIds(doc.sessions, cutoffTime), lastCleanup := Some(now))
  }

  /** A record without `created_timestamp` counts as created at 0, so every positive
      cutoff removes it; a second cleanup at the same cutoff finds nothing. */
  lemma {:induction false} V1CleanupFacts(doc: V1Store, cutoffTime: int, now: int, k: string)
    ensures k in doc.sessions && doc.sessions[k].createdTimestamp.None? && cutoffTime > 0 ==>
      k in OldSessionIds(doc.sessions, cutoffTime) && k !in CleanedStore(doc, cutoffTime, now).sessions
    ensures OldSessionIds(CleanedStore(doc, cutoffTime, now).sessions, cutoffTime) == {}
    ensures |doc.sessions| == |CleanedStore(doc, cutoffTime, now).sessions| + |OldSessionIds(doc.sessions, cutoffTime)|
  {
    var r := CleanedStore(doc, cutoffTime, now);
    var old_ := OldSessionIds(doc.sessions, cutoffTime);
    assert doc.sessions.Keys == r.sessions.Keys + old_;
    assert r.sessions.Keys !! old_;
    assert |doc.sessions.Keys| == |r.sessions.Keys| + |old_|;
  }

  /** `SessionManager`. The mapper is the one `get_session_mapper()` returns. */
  class SessionManager {
    const mapper: SessionMapper
    var store: Option<V1Store>
    var lastSessions: map<string, SessionInfo>

    constructor (mapper: SessionMapper, store: Option<V1Store>, lastSessions: map<string, SessionInfo>)
      ensures this.mapper == mapper && this.store == store && this.lastSessions == lastSessions
    {
      this.mapper := mapper;
      this.store := store;
      this.lastSessions := lastSessions;
    }

    /** `get_session_info`. */
    function GetSessionInfo(sessionId: string): (r: Option<SessionInfo>)
      reads this
      ensures r == SessionInfoIn(store, sessionId)
    {
      SessionInfoIn(store, sessionId)
    }

    /** `get_last_session`. */
    method GetLastSession(platform: string) returns (r: Option<SessionInfo>)
      ensures r == LastSessionOf(store, lastSessions, platform)
    {
      if platform in lastSessions {
        var sessionData := lastSessions[platform];
        var sessionId := sessionData.sessionId;
        if sessionId != "" {
          return GetSessionInfo(sessionId);
        }
      }
      return None;
    }

    /** `_save_session_mapping`: load, add the record, stamp, write. */
    method SaveSessionMapping(sessionId: string, info: SessionInfo, now: int, writeOk: bool) returns (ok: bool)
      modifies this
      ensures store == if writeOk then Some(SavedRecord(old(store), sessionId, info, now)) else old(store)
      ensures lastSessions == old(lastSessions)
      ensures ok == writeOk
    {
      var mappings := LoadSessionMappings(store, now);
      mappings := mappings.(sessions := mappings.sessions[sessionId := info]);
      mappings := mappings.(lastUpdated := Some(now));
      if writeOk {
        store := Some(mappings);
      }
      ok := writeOk;
    }

    /** `_update_last_session`: overwrites the platform's last-session file. */
    method UpdateLastSession(platform: string, info: SessionInfo, writeOk: bool) returns (ok: bool)
      modifies this
      ensures lastSessions == if writeOk then old(lastSessions)[platform := info] else old(lastSessions)
      ensures store == old(store)
      ensures ok == writeOk
    {
      if writeOk {
        lastSessions := lastSessions[platform := info];
      }
      ok := writeOk;
    }

    /** `_fallback_create_session`: `baseUuid` is the fresh `uuid4()`. */
    method FallbackCreateSession(platform: string, baseUuid: string, now: int, writeOk: bool)
      returns (info: SessionInfo)
      modifies this
      ensures info == FallbackInfo(platform, baseUuid, now)
      ensures store == if writeOk then Some(FallbackStore(old(store), platform, baseUuid, now)) else old(store)
      ensures lastSessions == if writeOk then old(lastSessions)[platform := info] else old(lastSessions)
    {
      var platformPrefix := Get(StaticPrefixes, platform).GetOr("01");
      var prefixedUuid := TagUuid(platformPrefix, baseUuid);
      info := SessionInfo(prefixedUuid, baseUuid, None, platform, now, Some(now), now);
      var _ := SaveSessionMapping(prefixedUuid, info, now, writeOk);
      var _ := SaveSessionMapping(baseUuid, info, now, writeOk);
      var _ := UpdateLastSession(platform, info, writeOk);
    }

    /** `_create_new_session`: the mapper always returns its ids, so the fallback is
        never taken; the new session is recorded by the mapper and in the last-session file,
        never in the v1 store. */
    method CreateNewSession(platform: string, standardUuid: string, now: int, mapperWriteOk: bool, lastWriteOk: bool)
      returns (info: SessionInfo)
      modifies this, mapper
      ensures var p := PrefixUuidFor(mapper.platformPrefixes, platform, standardUuid);
        info == SessionInfo(p, standardUuid, Some(p), platform, now, Some(now), now)
      ensures mapper.mappings ==
        Generated(old(mapper.mappings), mapper.platformPrefixes, platform, standardUuid, now).(lastUpdated := Some(now))
      ensures mapper.mappingsFile == if mapperWriteOk then Some(mapper.mappings) else old(mapper.mappingsFile)
      ensures lastSessions == if lastWriteOk then old(lastSessions)[platform := info] else old(lastSessions)
      ensures store == old(store)
    {
      var uuidMapping := mapper.GenerateDualUuids(platform, standardUuid, now, mapperWriteOk);
      info := SessionInfo(uuidMapping.sessionId, uuidMapping.standardUuid, Some(uuidMapping.prefixUuid),
                          platform, now, Some(now), now);
      var _ := UpdateLastSession(platform, info, lastWriteOk);
    }

    /** `create_or_get_session`: the last session when continuing and one is found,
        otherwise a new one. */
    method CreateOrGetSession(platform: string, continueSession: bool, standardUuid: string, now: int,
                              mapperWriteOk: bool, lastWriteOk: bool)
      returns (info: SessionInfo)
      modifies this, mapper
      ensures continueSession && LastSessionOf(old(store), old(lastSessions), platform).Some? ==>
        && info == LastSessionOf(old(store), old(lastSessions), platform).value
        && lastSessions == old(lastSessions) && mapper.mappings == old(mapper.mappings)
        && mapper.mappingsFile == old(mapper.mappingsFile)
      ensures !(continueSession && LastSessionOf(old(store), old(lastSessions), platform).Some?) ==>
        && (var p := PrefixUuidFor(mapper.platformPrefixes, platform, standardUuid);
            info == SessionInfo(p, standardUuid, Some(p), platform, now, Some(now), now))
        && mapper.mappings ==
             Generated(old(mapper.mappings), mapper.platformPrefixes, platform, standardUuid, now).(lastUpdated := Some(now))
        && mapper.mappingsFile == (if mapperWriteOk then Some(mapper.mappings) else old(mapper.mappingsFile))
        && lastSessions == if lastWriteOk then old(lastSessions)[platform := info] else old(lastSessions)
      ensures store == old(store)
    {
      if continueSession {
        var lastSession := GetLastSession(platform);
        if lastSession.Some? {
          return lastSession.value;
        }
      }
      info := CreateNewSession(platform, standardUuid, now, mapperWriteOk, lastWriteOk);
    }

    /** `cleanup_old_sessions`: removes the v1 records created before the cutoff and
        writes the store (with `last_cleanup`) only when something was removed. */
    method CleanupOldSessions(now: int, writeOk: bool, maxAgeDays: int := 30) returns (removed: nat)
      modifies this
      ensures var doc := LoadSessionMappings(old(store), now);
        removed == |OldSessionIds(doc.sessions, V1Cutoff(maxAgeDays, now))|
      ensures var doc := LoadSessionMappings(old(store), now);
        store == if removed > 0 && writeOk then Some(CleanedStore(doc, V1Cutoff(maxAgeDays, now), now)) else old(store)
      ensures lastSessions == old(lastSessions)
    {
      var cutoffTime := V1Cutoff(maxAgeDays, now);
      var mappings := LoadSessionMappings(store, now);
      var sessions := mappings.sessions;
      var sessionsToRemove: set<string> := {};
      var remaining := sessions.Keys;
      while remaining != {}
        invariant remaining <= sessions.Keys
        invariant sessionsToRemove == set k | k in sessions && k !in remaining && sessions[k].createdTimestamp.GetOr(0) < cutoffTime
        decreases remaining
      {
        var sessionId :| sessionId in remaining;
        var createdTimestamp := sessions[sessionId].createdTimestamp.GetOr(0);
        if createdTimestamp < cutoffTime {
          sessionsToRemove := sessionsToRemove + {sessionId};
        }
        remaining := remaining - {sessionId};
      }
      assert sessionsToRemove == OldSessionIds(sessions, cutoffTime);
      mappings := mappings.(sessions := sessions - sessionsToRemove);
      if sessionsToRemove != {} {
        mappings := mappings.(lastCleanup := Some(now));
        if writeOk {
          store := Some(mappings);
        }
      }
      removed := |sessionsToRemove|;
    }
  }

  /** A session created through the mapper cannot be continued later unless its id was
      already in the v1 store: the last-session file names it, but the v1 store is unchanged. */
  lemma NewSessionIsContinuableOnlyIfStored(store: Option<V1Store>, lastSessions: map<string, SessionInfo>,
                                            platform: string, info: SessionInfo)
    requires info.sessionId != ""
    ensures LastSessionOf(store, lastSessions[platform := info], platform).Some? <==>
      store.Some? && info.sessionId in store.value.sessions
  {
  }
}
