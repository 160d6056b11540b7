/** The session mapper of cc_launcher/core/session_mapper.py. Every Claude Code session has
    a standard UUID and a "prefix UUID" whose first two characters name the platform; the
    mapper keeps a forward map (prefix UUID to record), a reverse map (standard UUID to
    record) and, per platform, the list of its sessions. Timestamps are seconds; the
    mapper's ISO-format timestamps compare in the same order. */
module SessionMapping {
  import opened Wrappers
  import opened Text
  import opened Assoc
  import opened Config

  // ---------------------------------------------------------------- the mapping document

  /** An entry of `mappings`, keyed by prefix UUID. */
  datatype ForwardRecord = ForwardRecord(
    standardUuid: string, platform: string, createdAt: int, prefix: string, lastActive: Option<int>)

  /** An entry of `reverse_mappings`, keyed by standard UUID. */
  datatype ReverseRecord = ReverseRecord(
    prefixUuid: string, platform: string, createdAt: int, prefix: string, lastActive: Option<int>)

  /** An entry of a list in `platform_sessions`; `platform` is written by
      `get_recent_sessions`. */
  datatype SessionEntry = SessionEntry(
    standardUuid: string, prefixUuid: string, createdAt: int, lastActive: Option<int>,
    platform: Option<string>)

  /** `self.mappings`, the document kept in session-mappings.json. `platformSessions`
      keeps the key order of the JSON object. */
  datatype MappingDocument = MappingDocument(
    mappings: map<string, ForwardRecord>,
    reverseMappings: map<string, ReverseRecord>,
    platformSessions: seq<(string, seq<SessionEntry>)>,
    createdAt: Option<int>,
    lastUpdated: Option<int>,
    version: Option<string>)

  /** What `generate_dual_uuids` returns. */
  datatype DualIds = DualIds(standardUuid: string, prefixUuid: string, sessionId: string)

  /** The activity time used for ordering and expiry: `last_active`, else `created_at`. */
  function ActiveAt(e: SessionEntry): int {
    e.lastActive.GetOr(e.createdAt)
  }

  function RecordActiveAt(f: ForwardRecord): int {
    f.lastActive.GetOr(f.createdAt)
  }

  /** `_load_mappings`: the stored document, or a fresh empty one. */
  function LoadMappings(file: Option<MappingDocument>, now: int): (doc: MappingDocument)
    ensures file.Some? ==> doc == file.value
    ensures file.None? ==>
      && doc.mappings == map[] && doc.reverseMappings == map[] && doc.platformSessions == []
      && doc.createdAt == Some(now) && doc.version == Some("2.0") && doc.lastUpdated.None?
  {
    match file
    case Some(d) => d
    case None => MappingDocument(map[], map[], [], Some(now), None, Some("2.0"))
  }

  // ---------------------------------------------------------------- platform prefixes

  /** The platform keys in file order. */
  function PlatformNames(cfg: PlatformsConfig): (names: seq<string>)
    ensures |names| == |cfg.platforms|
    ensures forall i :: 0 <= i < |names| ==> names[i] == cfg.platforms[i].0
  {
    seq(|cfg.platforms|, i requires 0 <= i < |cfg.platforms| => cfg.platforms[i].0)
  }

  /** The prefix table: the sorted names numbered from 1 as `f"{index:02d}"`. */
  function PrefixTable(names: seq<string>): seq<(string, string)> {
    var sorted := SortStrings(names);
    seq(|sorted|, i requires 0 <= i < |sorted| => (sorted[i], ZeroPad2(i + 1)))
  }

  /** `_generate_platform_prefixes`. */
  method GeneratePlatformPrefixes(cfg: PlatformsConfig) returns (prefixes: seq<(string, string)>)
    ensures prefixes == PrefixTable(PlatformNames(cfg))
  {
    var sortedPlatforms := SortStrings(PlatformNames(cfg));
    ghost var table := PrefixTable(PlatformNames(cfg));
    prefixes := [];
    var index := 1;
    while index <= |sortedPlatforms|
      invariant 1 <= index <= |sortedPlatforms| + 1 && |table| == |sortedPlatforms|
      invariant prefixes == table[..index - 1]
    {
      var prefix := ZeroPad2(index);
      assert table[index - 1] == (sortedPlatforms[index - 1], prefix);
      assert table[..index] == table[..index - 1] + [table[index - 1]];
      prefixes := prefixes + [(sortedPlatforms[index - 1], prefix)];
      index := index + 1;
    }
    assert table[..|table|] == table;
  }

  /** The names of a table, in table order. */
  function TableNames(t: seq<(string, string)>): (names: seq<string>)
    ensures |names| == |t| && forall i :: 0 <= i < |t| ==> names[i] == t[i].0
  {
    seq(|t|, i requires 0 <= i < |t| => t[i].0)
  }

  /** The table lists the platform names in ascending order, each once per occurrence. */
  lemma PrefixTableOrder(names: seq<string>)
    ensures var t := PrefixTable(names);
      |t| == |names|
      && (forall i, j :: 0 <= i < j < |t| ==> StrLe(t[i].0, t[j].0))
      && multiset(TableNames(t)) == multiset(names)
  {
    var t := PrefixTable(names);
    assert TableNames(t) == SortStrings(names);
  }

  /** The prefix at position i denotes the number i + 1. */
  lemma PrefixTableNumbering(names: seq<string>)
    ensures var t := PrefixTable(names);
      forall i :: 0 <= i < |t| ==> DigitsValue(t[i].1) == i + 1
  {
    var t := PrefixTable(names);
    forall i | 0 <= i < |t| ensures DigitsValue(t[i].1) == i + 1 {
      ZeroPad2Value(i + 1);
    }
  }

  /** Distinct positions get distinct prefixes, and below 100 platforms every prefix is
      exactly two digits. */
  lemma {:induction false} PrefixTableDistinct(names: seq<string>)
    ensures var t := PrefixTable(names);
      (forall i, j :: 0 <= i < j < |t| ==> t[i].1 != t[j].1)
      && (|names| < 100 ==> forall i :: 0 <= i < |t| ==> |t[i].1| == 2 && IsDigit(t[i].1[0]) && IsDigit(t[i].1[1]))
  {
    var t := PrefixTable(names);
    forall i, j | 0 <= i < j < |t| ensures t[i].1 != t[j].1 {
      if t[i].1 == t[j].1 {
        ZeroPad2Injective(i + 1, j + 1);
      }
    }
  }

  /** The built-in registry's generated table: sorted, gaccode and deepseek become
      deepseek 01 and gaccode 02. */
  lemma DefaultPrefixTable()
    ensures PrefixTable(PlatformNames(DefaultPlatformsConfig)) == [("deepseek", "01"), ("gaccode", "02")]
  {
    DefaultPlatformNames();
    DefaultNamesTable();
  }

  lemma DefaultNamesTable()
    ensures PrefixTable(["gaccode", "deepseek"]) == [("deepseek", "01"), ("gaccode", "02")]
  {
    SortDefaultNames();
    FirstTwoPrefixes();
    var t := PrefixTable(["gaccode", "deepseek"]);
    assert |t| == 2 && t[0] == ("deepseek", ZeroPad2(1)) && t[1] == ("gaccode", ZeroPad2(2));
  }

  lemma FirstTwoPrefixes()
    ensures ZeroPad2(1) == "01" && ZeroPad2(2) == "02"
  {
    assert NatToDecimal(1) == "1" && NatToDecimal(2) == "2";
  }

  lemma DefaultPlatformNames()
    ensures PlatformNames(DefaultPlatformsConfig) == ["gaccode", "deepseek"]
  {
  }

  lemma SortDefaultNames()
    ensures SortStrings(["gaccode", "deepseek"]) == ["deepseek", "gaccode"]
  {
    var names := ["gaccode", "deepseek"];
    assert names[1..] == ["deepseek"];
    assert SortStrings(["deepseek"]) == ["deepseek"];
    assert !StrLe("gaccode", "deepseek");
    assert InsertString("gaccode", ["deepseek"]) == ["deepseek", "gaccode"];
  }

  /** `self.platform_prefixes.get(platform.lower(), "xx")`. */
  function PrefixFor(table: seq<(string, string)>, platform: string): (prefix: string)
    ensures Lower(platform) in Keys(table) ==> (Lower(platform), prefix) in table
    ensures Lower(platform) !in Keys(table) ==> prefix == "xx"
  {
    Get(table, Lower(platform)).GetOr("xx")
  }

  /** `f"{prefix}{standard_uuid[2:]}"`: the prefix replaces the first two characters. */
  function TagUuid(prefix: string, standardUuid: string): (tagged: string)
    ensures |tagged| == |prefix| + (if |standardUuid| >= 2 then |standardUuid| - 2 else 0)
    ensures tagged[..|prefix|] == prefix
    ensures forall i :: 2 <= i < |standardUuid| ==> tagged[|prefix| + i - 2] == standardUuid[i]
  {
    prefix + DropFirst(standardUuid, 2)
  }

  /** With a two-character prefix the tagged id has the standard id's length and agrees
      with it from position 2 on. */
  lemma TagUuidAgreesAfterPrefix(prefix: string, standardUuid: string)
    requires |prefix| == 2 && |standardUuid| >= 2
    ensures var tagged := TagUuid(prefix, standardUuid);
      |tagged| == |standardUuid| && tagged[..2] == prefix && tagged[2..] == standardUuid[2..]
  {
  }

  // ---------------------------------------------------------------- generation

  /** The prefix UUID `generate_dual_uuids` derives for a platform and standard UUID. */
  function PrefixUuidFor(table: seq<(string, string)>, platform: string, standardUuid: string): string {
    TagUuid(PrefixFor(table, platform), standardUuid)
  }

  /** The document after `generate_dual_uuids` has recorded a new session, before saving. */
  function Generated(doc: MappingDocument, table: seq<(string, string)>, platform: string,
                     standardUuid: string, now: int): (r: MappingDocument)
    ensures var p := PrefixUuidFor(table, platform, standardUuid);
      && p in r.mappings && r.mappings[p].standardUuid == standardUuid && r.mappings[p].platform == platform
      && standardUuid in r.reverseMappings && r.reverseMappings[standardUuid].prefixUuid == p
      && r.reverseMappings[standardUuid].platform == platform
      && (forall k :: k != p ==> (k in r.mappings <==> k in doc.mappings))
      && (forall k :: k != p && k in doc.mappings ==> r.mappings[k] == doc.mappings[k])
      && (forall k :: k != standardUuid ==> (k in r.reverseMappings <==> k in doc.reverseMappings))
      && (forall k :: k != standardUuid && k in doc.reverseMappings ==> r.reverseMappings[k] == doc.reverseMappings[k])
    ensures r.createdAt == doc.createdAt && r.lastUpdated == doc.lastUpdated && r.version == doc.version
  {
    var prefix := PrefixFor(table, platform);
    var prefixUuid := TagUuid(prefix, standardUuid);
    var sessions := Get(doc.platformSessions, platform).GetOr([]);
    var entry := SessionEntry(standardUuid, prefixUuid, now, Some(now), None);
    doc.(mappings := doc.mappings[prefixUuid := ForwardRecord(standardUuid, platform, now, prefix, None)],
         reverseMappings := doc.reverseMappings[standardUuid := ReverseRecord(prefixUuid, platform, now, prefix, None)],
         platformSessions := Update(doc.platformSessions, platform, sessions + [entry]))
  }

  /** The platform's list grows by exactly one entry, appended at the end (a new platform
      gets a one-entry list), and every other platform's list is untouched. */
  lemma {:induction false} GeneratedSessionLists(doc: MappingDocument, table: seq<(string, string)>,
                                                 platform: string, standardUuid: string, now: int, q: string)
    requires DistinctKeys(doc.platformSessions)
    ensures var r := Generated(doc, table, platform, standardUuid, now);
      var old_ := Get(doc.platformSessions, platform).GetOr([]);
      && DistinctKeys(r.platformSessions)
      && Get(r.platformSessions, platform) ==
           Some(old_ + [SessionEntry(standardUuid, PrefixUuidFor(table, platform, standardUuid), now, Some(now), None)])
      && (q != platform ==> Get(r.platformSessions, q) == Get(doc.platformSessions, q))
  {
    var old_ := Get(doc.platformSessions, platform).GetOr([]);
    var entry := SessionEntry(standardUuid, PrefixUuidFor(table, platform, standardUuid), now, Some(now), None);
    UpdateKeys(doc.platformSessions, platform, old_ + [entry]);
    UpdateGet(doc.platformSessions, platform, old_ + [entry], platform);
    UpdateGet(doc.platformSessions, platform, old_ + [entry], q);
  }

  /** The forward and reverse maps are inverse to each other. */
  ghost predicate Agree(m: map<string, ForwardRecord>, r: map<string, ReverseRecord>) {
    (forall p :: p in m ==> m[p].standardUuid in r && r[m[p].standardUuid].prefixUuid == p)
    && (forall s :: s in r ==> r[s].prefixUuid in m && m[r[s].prefixUuid].standardUuid == s)
  }

  /** Recording a session whose two ids are both new keeps the maps inverse. */
  lemma GeneratedKeepsAgreement(doc: MappingDocument, table: seq<(string, string)>,
                                platform: string, standardUuid: string, now: int)
    requires Agree(doc.mappings, doc.reverseMappings)
    requires standardUuid !in doc.reverseMappings
    requires PrefixUuidFor(table, platform, standardUuid) !in doc.mappings
    ensures var r := Generated(doc, table, platform, standardUuid, now);
      Agree(r.mappings, r.reverseMappings)
  {
  }

  // ---------------------------------------------------------------- lookups

  /** The part of a session id the prefix heuristic compares: the text before the first
      `-` when there is one, otherwise the first two characters. */
  function SessionHead(sessionId: string): string {
    if '-' in sessionId then FirstSegment(sessionId, '-') else TakeFirst(sessionId, 2)
  }

  /** The first platform of the table whose prefix equals `head`. */
  function HeuristicPlatform(table: seq<(string, string)>, head: string): (r: Option<string>)
    ensures r.None? <==> forall i :: 0 <= i < |table| ==> table[i].1 != head
    ensures r.Some? ==> exists i :: 0 <= i < |table| && table[i] == (r.value, head)
                           && forall j :: 0 <= j < i ==> table[j].1 != head
  {
    if table == [] then None
    else if table[0].1 == head then
      assert table[0] == (table[0].0, head);
      Some(table[0].0)
    else
      var r := HeuristicPlatform(table[1..], head);
      assert forall i :: 1 <= i < |table| ==> table[i] == table[1..][i - 1];
      if r.Some? then
        var i :| 0 <= i < |table[1..]| && table[1..][i] == (r.value, head)
                 && forall j :: 0 <= j < i ==> table[1..][j].1 != head;
        assert table[i + 1] == (r.value, head);
        r
      else r
  }

  /** `get_platform_from_session`: the forward map, then the reverse map, then the
      prefix heuristic. */
  function PlatformOf(doc: MappingDocument, table: seq<(string, string)>, sessionId: string): (r: Option<string>)
    ensures sessionId in doc.mappings ==> r == Some(doc.mappings[sessionId].platform)
    ensures sessionId !in doc.mappings && sessionId in doc.reverseMappings ==>
      r == Some(doc.reverseMappings[sessionId].platform)
    ensures sessionId !in doc.mappings && sessionId !in doc.reverseMappings ==>
      r == HeuristicPlatform(table, SessionHead(sessionId))
  {
    if sessionId in doc.mappings then Some(doc.mappings[sessionId].platform)
    else if sessionId in doc.reverseMappings then Some(doc.reverseMappings[sessionId].platform)
    else HeuristicPlatform(table, SessionHead(sessionId))
  }

  /** An unknown id containing `-` whose first segment is not two characters long (any
      UUID) matches no prefix of a table of fewer than 100 platforms. */
  lemma DashedUnknownIdHasNoPlatform(doc: MappingDocument, names: seq<string>, sessionId: string)
    requires sessionId !in doc.mappings && sessionId !in doc.reverseMappings
    requires '-' in sessionId && |FirstSegment(sessionId, '-')| != 2
    requires |names| < 100
    ensures PlatformOf(doc, PrefixTable(names), sessionId).None?
  {
    PrefixTableDistinct(names);
  }

  /** `get_standard_uuid`. */
  function StandardUuid(doc: MappingDocument, sessionId: string): (r: Option<string>)
    ensures sessionId in doc.mappings ==> r == Some(doc.mappings[sessionId].standardUuid)
    ensures sessionId !in doc.mappings ==> r == if sessionId in doc.reverseMappings then Some(sessionId) else None
  {
    if sessionId in doc.mappings then Some(doc.mappings[sessionId].standardUuid)
    else if sessionId in doc.reverseMappings then Some(sessionId)
    else None
  }

  /** `get_prefix_uuid`. */
  function PrefixUuid(doc: MappingDocument, standardUuid: string): (r: Option<string>)
    ensures r.Some? <==> standardUuid in doc.reverseMappings
    ensures r.Some? ==> r.value == doc.reverseMappings[standardUuid].prefixUuid
  {
    if standardUuid in doc.reverseMappings then Some(doc.reverseMappings[standardUuid].prefixUuid)
    else None
  }

  /** Round trip: with inverse maps, the prefix UUID of a standard UUID leads back to it;
      a standard UUID that is not also some forward key of another session reads as
      itself; an id in neither map has no standard UUID. */
  lemma StandardPrefixRoundTrip(doc: MappingDocument, s: string)
    requires Agree(doc.mappings, doc.reverseMappings)
    ensures s in doc.reverseMappings ==> StandardUuid(doc, PrefixUuid(doc, s).value) == Some(s)
    ensures s in doc.reverseMappings && (s in doc.mappings ==> doc.mappings[s].standardUuid == s) ==>
      StandardUuid(doc, s) == Some(s)
    ensures s !in doc.reverseMappings && s !in doc.mappings ==> StandardUuid(doc, s).None? && PrefixUuid(doc, s).None?
  {
  }

  /** The exception: a standard UUID may itself be the prefix UUID of another session
      (when a tagged id collides with it), and then reads as that session's UUID. */
  lemma StandardUuidCollision()
    ensures var doc := MappingDocument(
        map["01a" := ForwardRecord("x1a", "p", 0, "01", None), "x1a" := ForwardRecord("01a", "q", 0, "x1", None)],
        map["x1a" := ReverseRecord("01a", "p", 0, "01", None), "01a" := ReverseRecord("x1a", "q", 0, "x1", None)],
        [], None, None, None);
      Agree(doc.mappings, doc.reverseMappings) && "01a" in doc.reverseMappings
      && StandardUuid(doc, "01a") == Some("x1a")
  {
  }

  // ---------------------------------------------------------------- activity

  /** Index of the first entry with this standard UUID, or the length of the list. */
  function FirstWithStandard(l: seq<SessionEntry>, standardUuid: string): (k: nat)
    ensures k <= |l|
    ensures k < |l| ==> l[k].standardUuid == standardUuid
    ensures forall j :: 0 <= j < k ==> l[j].standardUuid != standardUuid
  {
    if l == [] then 0
    else if l[0].standardUuid == standardUuid then 0
    else 1 + FirstWithStandard(l[1..], standardUuid)
  }

  /** The list after the first entry with this standard UUID is stamped active at `now`. */
  function TouchFirst(l: seq<SessionEntry>, standardUuid: string, now: int): (r: seq<SessionEntry>)
    ensures |r| == |l|
  {
    var k := FirstWithStandard(l, standardUuid);
    if k < |l| then l[k := l[k].(lastActive := Some(now))] else l
  }

  /** Only the first matching entry is stamped; a duplicate later in the list, and every
      other entry, keeps its time. */
  lemma TouchFirstStampsFirstMatch(l: seq<SessionEntry>, standardUuid: string, now: int)
    ensures var r := TouchFirst(l, standardUuid, now);
      && (forall j :: 0 <= j < |l| && l[j].standardUuid != standardUuid ==> r[j] == l[j])
      && (forall j :: 0 <= j < |l| && l[j].standardUuid == standardUuid ==>
            (ActiveAt(r[j]) == now <== (forall i :: 0 <= i < j ==> l[i].standardUuid != standardUuid)))
      && (forall i, j :: 0 <= i < j < |l| && l[i].standardUuid == standardUuid ==> r[j] == l[j])
      && (forall j :: 0 <= j < |l| ==> r[j].standardUuid == l[j].standardUuid && r[j].createdAt == l[j].createdAt)
      && (var k := FirstWithStandard(l, standardUuid); k < |l| ==> r[k] == l[k].(lastActive := Some(now)))
  {
  }

  /** `update_session_activity` applies: the id has a platform and a standard UUID. */
  predicate ActivityApplies(doc: MappingDocument, table: seq<(string, string)>, sessionId: string) {
    Truthy(PlatformOf(doc, table, sessionId)) && Truthy(StandardUuid(doc, sessionId))
  }

  /** The document after `update_session_activity` stamped a session, before saving: the
      forward record only when the id is a prefix UUID, the reverse record of its standard
      UUID, and the first entry of the platform's list that carries that UUID. */
  function Touched(doc: MappingDocument, sessionId: string, platform: string, standardUuid: string,
                   now: int): MappingDocument
  {
    var m := doc.mappings;
    var rv := doc.reverseMappings;
    doc.(
      mappings := if sessionId in m then m[sessionId := m[sessionId].(lastActive := Some(now))] else m,
      reverseMappings := if standardUuid in rv then rv[standardUuid := rv[standardUuid].(lastActive := Some(now))] else rv,
      platformSessions := match Get(doc.platformSessions, platform)
        case None => doc.platformSessions
        case Some(l) => Update(doc.platformSessions, platform, TouchFirst(l, standardUuid, now)))
  }

  /** What a stamp changes: the key sets and the metadata stay, the touched records only
      become active at `now`, and the platform's list is the stamped list while every other list is untouched. */
  lemma {:induction false} TouchedChanges(doc: MappingDocument, sessionId: string, platform: string,
                                          standardUuid: string, now: int, q: string)
    requires DistinctKeys(doc.platformSessions)
    ensures var r := Touched(doc, sessionId, platform, standardUuid, now);
      && r.mappings.Keys == doc.mappings.Keys && r.reverseMappings.Keys == doc.reverseMappings.Keys
      && (sessionId in doc.mappings ==> r.mappings[sessionId] == doc.mappings[sessionId].(lastActive := Some(now)))
      && (forall k :: k in doc.mappings && k != sessionId ==> r.mappings[k] == doc.mappings[k])
      && (standardUuid in doc.reverseMappings ==>
            r.reverseMappings[standardUuid] == doc.reverseMappings[standardUuid].(lastActive := Some(now)))
      && (forall k :: k in doc.reverseMappings && k != standardUuid ==> r.reverseMappings[k] == doc.reverseMappings[k])
      && r.createdAt == doc.createdAt && r.lastUpdated == doc.lastUpdated && r.version == doc.version
      && DistinctKeys(r.platformSessions) && Keys(r.platformSessions) == Keys(doc.platformSessions)
      && Get(r.platformSessions, platform) ==
           (if platform in Keys(doc.platformSessions)
            then Some(TouchFirst(Get(doc.platformSessions, platform).value, standardUuid, now)) else None)
      && (q != platform ==> Get(r.platformSessions, q) == Get(doc.platformSessions, q))
  {
    match Get(doc.platformSessions, platform)
    case None =>
    case Some(l) =>
      UpdateKeys(doc.platformSessions, platform, TouchFirst(l, standardUuid, now));
      UpdateGet(doc.platformSessions, platform, TouchFirst(l, standardUuid, now), platform);
      UpdateGet(doc.platformSessions, platform, TouchFirst(l, standardUuid, now), q);
  }

  /** Stamping activity keeps the maps inverse: no key and no id field changes. */
  lemma TouchedKeepsAgreement(doc: MappingDocument, sessionId: string, platform: string,
                              standardUuid: string, now: int)
    requires Agree(doc.mappings, doc.reverseMappings)
    ensures var r := Touched(doc, sessionId, platform, standardUuid, now);
      Agree(r.mappings, r.reverseMappings)
  {
  }

  /** A session stamped through its standard UUID keeps its forward record's old time,
      so a cleanup whose cutoff lies between that time and the stamp drops both mapping
      records of the session although its reverse record was just stamped. */
  lemma StampByStandardUuidLeavesForwardRecordStale(doc: MappingDocument, platform: string, s: string,
                                                      now: int, cutoff: int)
    requires Agree(doc.mappings, doc.reverseMappings)
    requires s in doc.reverseMappings && s !in doc.mappings && s != ""
    requires RecordActiveAt(doc.mappings[doc.reverseMappings[s].prefixUuid]) < cutoff <= now
    ensures var t := Touched(doc, s, platform, s, now);
      var c := Cleaned(t, cutoff);
      && StandardUuid(doc, s) == Some(s)
      && t.reverseMappings[s].lastActive == Some(now) && t.mappings == doc.mappings
      && doc.reverseMappings[s].prefixUuid !in c.mappings && s !in c.reverseMappings
  {
    var p := doc.reverseMappings[s].prefixUuid;
    var t := Touched(doc, s, platform, s, now);
    assert t.mappings == doc.mappings;
    assert p in ExpiredIds(t.mappings, cutoff);
    assert t.mappings[p].standardUuid == s;
    assert s in ExpiredStandards(t.mappings, cutoff);
  }

  // ---------------------------------------------------------------- listing

  /** Newest first by activity time. */
  ghost predicate NewestFirst(s: seq<SessionEntry>) {
    forall i, j :: 0 <= i < j < |s| ==> ActiveAt(s[i]) >= ActiveAt(s[j])
  }

  /** Inserts `x` before the first entry that is not more recent than it, so that
      entries of equal time keep their order. */
  function InsertByRecency(x: SessionEntry, s: seq<SessionEntry>): (r: seq<SessionEntry>)
    requires NewestFirst(s)
    ensures NewestFirst(r)
    ensures multiset(r) == multiset(s) + multiset{x}
    ensures |r| == |s| + 1
    ensures r[0] == x || (s != [] && r[0] == s[0])
  {
    if s == [] then [x]
    else if ActiveAt(x) >= ActiveAt(s[0]) then
      ConsNewest(x, s);
      [x] + s
    else
      NewestTail(s);
      var rest := InsertByRecency(x, s[1..]);
      InsertBehind(x, s, rest);
      [s[0]] + rest
  }

  /** The step of `InsertByRecency` that keeps the head of `s` in front. */
  lemma InsertBehind(x: SessionEntry, s: seq<SessionEntry>, rest: seq<SessionEntry>)
    requires s != [] && ActiveAt(x) < ActiveAt(s[0])
    requires NewestFirst(s) && NewestFirst(rest)
    requires multiset(rest) == multiset(s[1..]) + multiset{x} && |rest| == |s|
    requires rest[0] == x || (|s| > 1 && rest[0] == s[1])
    ensures NewestFirst([s[0]] + rest)
    ensures multiset([s[0]] + rest) == multiset(s) + multiset{x}
  {
    ConsNewest(s[0], rest);
    assert s == [s[0]] + s[1..];
  }

  lemma NewestTail(s: seq<SessionEntry>)
    requires NewestFirst(s) && s != []
    ensures NewestFirst(s[1..]) && (|s| > 1 ==> ActiveAt(s[0]) >= ActiveAt(s[1]))
  {
    assert forall i :: 0 <= i < |s| - 1 ==> s[1..][i] == s[i + 1];
  }

  lemma ConsNewest(y: SessionEntry, s: seq<SessionEntry>)
    requires NewestFirst(s) && (s != [] ==> ActiveAt(y) >= ActiveAt(s[0]))
    ensures NewestFirst([y] + s)
  {
    assert forall j :: 0 <= j < |s| ==> ActiveAt(y) >= ActiveAt(s[j]);
  }

  /** `sorted(..., key=last_active or created_at, reverse=True)`. */
  function SortByRecency(s: seq<SessionEntry>): (r: seq<SessionEntry>)
    ensures NewestFirst(r)
    ensures multiset(r) == multiset(s)
    ensures |r| == |s|
  {
    if s == [] then []
    else
      assert s == [s[0]] + s[1..];
      InsertByRecency(s[0], SortByRecency(s[1..]))
  }

  /** `sorted(...)[:limit]` keeps the most recent entries: what it returns is drawn from
      the list, and no entry left out is more recent than an entry returned. */
  lemma {:induction false} NewestPrefixIsMostRecent(l: seq<SessionEntry>, limit: int)
    ensures var r := PyPrefix(SortByRecency(l), limit);
      && multiset(r) <= multiset(l)
      && (limit >= 0 ==> |r| == if limit <= |l| then limit else |l|)
      && forall x, y :: x in multiset(r) && y in multiset(l) - multiset(r) ==> ActiveAt(x) >= ActiveAt(y)
  {
    var sorted := SortByRecency(l);
    var r := PyPrefix(sorted, limit);
    var n := |r|;
    assert multiset(r) <= multiset(l) && multiset(l) - multiset(r) == multiset(sorted[n..]) by {
      assert sorted == r + sorted[n..];
    }
    assert r == sorted[..n];
    NewestSplit(sorted, n);
  }

  lemma NewestSplit(q: seq<SessionEntry>, n: nat)
    requires NewestFirst(q) && n <= |q|
    ensures forall x, y :: x in multiset(q[..n]) && y in multiset(q[n..]) ==> ActiveAt(x) >= ActiveAt(y)
  {
    forall x, y | x in multiset(q[..n]) && y in multiset(q[n..]) ensures ActiveAt(x) >= ActiveAt(y) {
      var i :| 0 <= i < n && q[..n][i] == x;
      var j :| 0 <= j < |q| - n && q[n..][j] == y;
      assert q[i] == x && q[n + j] == y;
    }
  }

  /** `get_platform_sessions`: nothing for an unknown platform, otherwise the first
      `limit` of its sessions, newest first. */
  function PlatformSessions(doc: MappingDocument, platform: string, limit: int := 10): (r: seq<SessionEntry>)
    ensures platform !in Keys(doc.platformSessions) ==> r == []
    ensures platform in Keys(doc.platformSessions) ==>
      var l := Get(doc.platformSessions, platform).value;
      NewestFirst(r) && multiset(r) <= multiset(l)
      && (limit >= 0 ==> |r| == if limit <= |l| then limit else |l|)
      && forall x, y :: x in multiset(r) && y in multiset(l) - multiset(r) ==> ActiveAt(x) >= ActiveAt(y)
  {
    match Get(doc.platformSessions, platform)
    case None => []
    case Some(l) =>
      NewestPrefixIsMostRecent(l, limit);
      PyPrefix(SortByRecency(l), limit)
  }

  /** Every entry tagged with the platform it is listed under. */
  function TagList(l: seq<SessionEntry>, platform: string): (r: seq<SessionEntry>)
    ensures |r| == |l|
    ensures forall i :: 0 <= i < |l| ==> r[i] == l[i].(platform := Some(platform))
  {
    seq(|l|, i requires 0 <= i < |l| => l[i].(platform := Some(platform)))
  }

  function TaggedSessions(ps: seq<(string, seq<SessionEntry>)>): (r: seq<(string, seq<SessionEntry>)>)
    ensures |r| == |ps|
    ensures forall i :: 0 <= i < |ps| ==> r[i] == (ps[i].0, TagList(ps[i].1, ps[i].0))
  {
    seq(|ps|, i requires 0 <= i < |ps| => (ps[i].0, TagList(ps[i].1, ps[i].0)))
  }

  /** All lists concatenated in platform order. */
  function AllEntries(ps: seq<(string, seq<SessionEntry>)>): (r: seq<SessionEntry>)
    ensures |r| == TotalCount(ps)
  {
    if ps == [] then [] else AllEntries(ps[..|ps| - 1]) + ps[|ps| - 1].1
  }

  function TotalCount(ps: seq<(string, seq<SessionEntry>)>): nat {
    if ps == [] then 0 else TotalCount(ps[..|ps| - 1]) + |ps[|ps| - 1].1|
  }

  /** After tagging, every entry of the combined list names a platform it is listed
      under, and no entry is lost. */
  lemma {:induction false} TaggedEntriesNameTheirPlatform(ps: seq<(string, seq<SessionEntry>)>)
    ensures var all := AllEntries(TaggedSessions(ps));
      |all| == TotalCount(ps)
      && forall i :: 0 <= i < |all| ==> all[i].platform.Some? && all[i].platform.value in Keys(ps)
    decreases |ps|
  {
    if ps != [] {
      var init := ps[..|ps| - 1];
      TaggedEntriesNameTheirPlatform(init);
      var t := TaggedSessions(ps);
      assert t[..|t| - 1] == TaggedSessions(init);
      assert TotalCount(t) == TotalCount(ps) by { TaggedCount(ps); }
      var all := AllEntries(t);
      var front := AllEntries(TaggedSessions(init));
      var last := t[|t| - 1].1;
      assert all == front + last;
      forall i | 0 <= i < |all| ensures all[i].platform.Some? && all[i].platform.value in Keys(ps) {
        if i < |front| {
          assert all[i] == front[i];
          assert Keys(init) <= Keys(ps) by {
            forall k | k in Keys(init) ensures k in Keys(ps) {
              var j :| 0 <= j < |init| && init[j].0 == k;
              assert ps[j].0 == k;
            }
          }
        } else {
          assert all[i] == last[i - |front|];
          assert ps[|ps| - 1].0 in Keys(ps);
        }
      }
    }
  }

  lemma {:induction false} TaggedCount(ps: seq<(string, seq<SessionEntry>)>)
    ensures TotalCount(TaggedSessions(ps)) == TotalCount(ps)
    decreases |ps|
  {
    if ps != [] {
      var init := ps[..|ps| - 1];
      TaggedCount(init);
      assert TaggedSessions(ps)[..|ps| - 1] == TaggedSessions(init);
    }
  }

  // ---------------------------------------------------------------- cleanup

  const SecondsPerDay := 86400

  /** `datetime.now() - timedelta(days=days)`. */
  function Cutoff(days: int, now: int): int {
    now - days * SecondsPerDay
  }

  /** The entries active at or after the cutoff, in order. */
  function KeepRecent(l: seq<SessionEntry>, cutoff: int): (r: seq<SessionEntry>)
    ensures |r| <= |l|
    ensures forall i :: 0 <= i < |r| ==> ActiveAt(r[i]) >= cutoff
  {
    if l == [] then []
    else
      var prev := KeepRecent(l[..|l| - 1], cutoff);
      if ActiveAt(l[|l| - 1]) >= cutoff then prev + [l[|l| - 1]] else prev
  }

  /** The entries active before the cutoff, in order. */
  function Expired(l: seq<SessionEntry>, cutoff: int): seq<SessionEntry> {
    if l == [] then []
    else
      var prev := Expired(l[..|l| - 1], cutoff);
      if ActiveAt(l[|l| - 1]) < cutoff then prev + [l[|l| - 1]] else prev
  }

  /** Exactly the entries active at or after the cutoff are kept, and exactly the others
      count as expired. */
  lemma {:induction false} KeepRecentMembers(l: seq<SessionEntry>, cutoff: int, e: SessionEntry)
    ensures e in KeepRecent(l, cutoff) <==> e in l && ActiveAt(e) >= cutoff
    ensures e in Expired(l, cutoff) <==> e in l && ActiveAt(e) < cutoff
    decreases |l|
  {
    if l != [] {
      var init := l[..|l| - 1];
      KeepRecentMembers(init, cutoff, e);
      assert l == init + [l[|l| - 1]];
    }
  }

  /** Every entry is either kept or expired. */
  lemma {:induction false} KeepRecentSplit(l: seq<SessionEntry>, cutoff: int)
    ensures |KeepRecent(l, cutoff)| + |Expired(l, cutoff)| == |l|
    ensures multiset(KeepRecent(l, cutoff)) + multiset(Expired(l, cutoff)) == multiset(l)
    decreases |l|
  {
    if l != [] {
      var init := l[..|l| - 1];
      var x := l[|l| - 1];
      KeepRecentSplit(init, cutoff);
      assert l == init + [x];
      assert multiset(l) == multiset(init) + multiset{x};
      if ActiveAt(x) >= cutoff {
        assert KeepRecent(l, cutoff) == KeepRecent(init, cutoff) + [x];
        assert Expired(l, cutoff) == Expired(init, cutoff);
      } else {
        assert KeepRecent(l, cutoff) == KeepRecent(init, cutoff);
        assert Expired(l, cutoff) == Expired(init, cutoff) + [x];
      }
    }
  }

  /** A later cutoff keeps no more entries. */
  lemma {:induction false} KeepRecentMonotone(l: seq<SessionEntry>, later: int, earlier: int)
    requires earlier <= later
    ensures |KeepRecent(l, later)| <= |KeepRecent(l, earlier)|
    decreases |l|
  {
    if l != [] {
      KeepRecentMonotone(l[..|l| - 1], later, earlier);
    }
  }

  /** The platform lists after cleanup: each list filtered, emptied platforms dropped,
      the order of the rest kept. */
  function CleanSessions(ps: seq<(string, seq<SessionEntry>)>, cutoff: int): (r: seq<(string, seq<SessionEntry>)>)
    ensures forall i :: 0 <= i < |r| ==> r[i].1 != [] && forall j :: 0 <= j < |r[i].1| ==> ActiveAt(r[i].1[j]) >= cutoff
    ensures Keys(r) <= Keys(ps)
  {
    if ps == [] then []
    else
      var init := ps[..|ps| - 1];
      var (platform, l) := ps[|ps| - 1];
      var prev := CleanSessions(init, cutoff);
      assert Keys(init) <= Keys(ps) by {
        forall k | k in Keys(init) ensures k in Keys(ps) {
          var j :| 0 <= j < |init| && init[j].0 == k;
          assert ps[j].0 == k;
        }
      }
      var kept := KeepRecent(l, cutoff);
      if kept == [] then prev
      else
        assert ps[|ps| - 1].0 in Keys(ps);
        prev + [(platform, kept)]
  }

  /** The number of expired entries over all lists. */
  function ExpiredCount(ps: seq<(string, seq<SessionEntry>)>, cutoff: int): nat {
    if ps == [] then 0 else ExpiredCount(ps[..|ps| - 1], cutoff) + |Expired(ps[|ps| - 1].1, cutoff)|
  }

  /** Each list becomes exactly its recent part, and a platform stays listed exactly when
      some of its sessions are recent. */
  lemma {:induction false} CleanSessionsGet(ps: seq<(string, seq<SessionEntry>)>, cutoff: int, k: string)
    requires DistinctKeys(ps)
    ensures DistinctKeys(CleanSessions(ps, cutoff))
    ensures Get(CleanSessions(ps, cutoff), k) ==
      match Get(ps, k)
      case None => None
      case Some(l) => if KeepRecent(l, cutoff) == [] then None else Some(KeepRecent(l, cutoff))
    decreases |ps|
  {
    if ps != [] {
      var init := ps[..|ps| - 1];
      var e := ps[|ps| - 1];
      assert ps == init + [e];
      assert DistinctKeys(init);
      CleanSessionsGet(init, cutoff, k);
      GetAppend(init, e, k);
      var prev := CleanSessions(init, cutoff);
      var kept := KeepRecent(e.1, cutoff);
      assert e.0 !in Keys(init);
      if kept != [] {
        GetAppend(prev, (e.0, kept), k);
        assert Get(prev, e.0) == None by { CleanSessionsGet(init, cutoff, e.0); }
        assert e.0 !in Keys(prev);
      }
    }
  }

  /** The count reported is the number of entries removed from the lists. */
  lemma {:induction false} ExpiredCountIsRemoved(ps: seq<(string, seq<SessionEntry>)>, cutoff: int)
    ensures TotalCount(ps) == TotalCount(CleanSessions(ps, cutoff)) + ExpiredCount(ps, cutoff)
    decreases |ps|
  {
    if ps != [] {
      var init := ps[..|ps| - 1];
      ExpiredCountIsRemoved(init, cutoff);
      KeepRecentSplit(ps[|ps| - 1].1, cutoff);
    }
  }

  /** Cleaning twice at the same cutoff changes nothing more and removes nothing. */
  lemma {:induction false} CleanSessionsIdempotent(ps: seq<(string, seq<SessionEntry>)>, cutoff: int)
    ensures CleanSessions(CleanSessions(ps, cutoff), cutoff) == CleanSessions(ps, cutoff)
    ensures ExpiredCount(CleanSessions(ps, cutoff), cutoff) == 0
    decreases |ps|
  {
    if ps != [] {
      var init := ps[..|ps| - 1];
      CleanSessionsIdempotent(init, cutoff);
      var kept := KeepRecent(ps[|ps| - 1].1, cutoff);
      if kept != [] {
        var prev := CleanSessions(init, cutoff);
        var r := prev + [(ps[|ps| - 1].0, kept)];
        assert r[..|r| - 1] == prev;
        KeepRecentAll(kept, cutoff);
      }
    }
  }

  /** A list that is already recent is kept whole. */
  lemma {:induction false} KeepRecentAll(l: seq<SessionEntry>, cutoff: int)
    requires forall i :: 0 <= i < |l| ==> ActiveAt(l[i]) >= cutoff
    ensures KeepRecent(l, cutoff) == l
    ensures Expired(l, cutoff) == []
    decreases |l|
  {
    if l != [] {
      var init := l[..|l| - 1];
      assert forall i :: 0 <= i < |init| ==> ActiveAt(init[i]) >= cutoff by {
        forall i | 0 <= i < |init| ensures ActiveAt(init[i]) >= cutoff {
          assert init[i] == l[i];
        }
      }
      KeepRecentAll(init, cutoff);
      assert ActiveAt(l[|l| - 1]) >= cutoff;
      assert l == init + [l[|l| - 1]];
    }
  }

  /** The prefix UUIDs whose records were last active before the cutoff. */
  function ExpiredIds(m: map<string, ForwardRecord>, cutoff: int): set<string> {
    set k | k in m && RecordActiveAt(m[k]) < cutoff
  }

  /** The non-empty standard UUIDs of those records. */
  function ExpiredStandards(m: map<string, ForwardRecord>, cutoff: int): set<string> {
    set k | k in m && RecordActiveAt(m[k]) < cutoff && m[k].standardUuid != "" :: m[k].standardUuid
  }

  /** The document after `cleanup_old_sessions`, before saving. */
  function Cleaned(doc: MappingDocument, cutoff: int): (r: MappingDocument)
    ensures forall k :: k in r.mappings ==> RecordActiveAt(r.mappings[k]) >= cutoff
    ensures forall k :: k in doc.mappings && RecordActiveAt(doc.mappings[k]) >= cutoff ==>
      k in r.mappings && r.mappings[k] == doc.mappings[k]
    ensures forall k :: k in doc.mappings && RecordActiveAt(doc.mappings[k]) < cutoff && doc.mappings[k].standardUuid != "" ==>
      doc.mappings[k].standardUuid !in r.reverseMappings
    ensures r.mappings.Keys <= doc.mappings.Keys
    ensures r.reverseMappings.Keys <= doc.reverseMappings.Keys
    ensures forall s :: s in doc.reverseMappings && s !in ExpiredStandards(doc.mappings, cutoff) ==>
      s in r.reverseMappings && r.reverseMappings[s] == doc.reverseMappings[s]
    ensures r.platformSessions == CleanSessions(doc.platformSessions, cutoff)
    ensures r.createdAt == doc.createdAt && r.lastUpdated == doc.lastUpdated && r.version == doc.version
  {
    doc.(platformSessions := CleanSessions(doc.platformSessions, cutoff),
         mappings := doc.mappings - ExpiredIds(doc.mappings, cutoff),
         reverseMappings := doc.reverseMappings - ExpiredStandards(doc.mappings, cutoff))
  }

  /** Cleanup keeps the maps inverse when no record has an empty standard UUID. */
  lemma CleanedKeepsAgreement(doc: MappingDocument, cutoff: int)
    requires Agree(doc.mappings, doc.reverseMappings)
    requires "" !in doc.reverseMappings
    ensures var r := Cleaned(doc, cutoff);
      Agree(r.mappings, r.reverseMappings)
  {
    var m := doc.mappings;
    var r := Cleaned(doc, cutoff);
    forall p | p in r.mappings
      ensures r.mappings[p].standardUuid in r.reverseMappings && r.reverseMappings[r.mappings[p].standardUuid].prefixUuid == p
    {
      var s := m[p].standardUuid;
      assert forall k :: k in m && m[k].standardUuid == s ==> k == p by {
        forall k | k in m && m[k].standardUuid == s ensures k == p {
          assert doc.reverseMappings[s].prefixUuid == k;
        }
      }
      assert s !in ExpiredStandards(m, cutoff);
    }
  }

  // ---------------------------------------------------------------- statistics

  const SecondsPerWeek := 7 * SecondsPerDay

  datatype PlatformStat = PlatformStat(totalSessions: nat, activeSessions24h: nat, activeSessions7d: nat)

  /** What `get_statistics` returns. */
  datatype Statistics = Statistics(
    totalSessions: nat,
    platformStats: seq<(string, PlatformStat)>,
    platforms: seq<string>,
    createdAt: Option<int>,
    lastUpdated: Option<int>,
    version: string)

  /** The counts for one platform: all sessions, those active within the last 24 hours
      and those within the last 7 days (bounds included, future times counted). */
  function StatOf(l: seq<SessionEntry>, now: int): PlatformStat {
    PlatformStat(|l|, |KeepRecent(l, now - SecondsPerDay)|, |KeepRecent(l, now - SecondsPerWeek)|)
  }

  function StatisticsOf(doc: MappingDocument, now: int): Statistics {
    var ps := doc.platformSessions;
    Statistics(
      |doc.mappings|,
      seq(|ps|, i requires 0 <= i < |ps| => (ps[i].0, StatOf(ps[i].1, now))),
      seq(|ps|, i requires 0 <= i < |ps| => ps[i].0),
      doc.createdAt, doc.lastUpdated, doc.version.GetOr("2.0"))
  }

  /** One entry per listed platform, in order, with 24 h <= 7 d <= total; the session
      total counts forward records, not list entries. */
  lemma {:induction false} StatisticsBounds(doc: MappingDocument, now: int)
    ensures var st := StatisticsOf(doc, now);
      && |st.platformStats| == |doc.platformSessions| == |st.platforms|
      && st.totalSessions == |doc.mappings|
      && forall i :: 0 <= i < |st.platformStats| ==>
           st.platformStats[i].0 == st.platforms[i] == doc.platformSessions[i].0
           && st.platformStats[i].1.totalSessions == |doc.platformSessions[i].1|
           && st.platformStats[i].1.activeSessions24h <= st.platformStats[i].1.activeSessions7d
              <= st.platformStats[i].1.totalSessions
  {
    var st := StatisticsOf(doc, now);
    forall i | 0 <= i < |st.platformStats|
      ensures st.platformStats[i].1.activeSessions24h <= st.platformStats[i].1.activeSessions7d
    {
      KeepRecentMonotone(doc.platformSessions[i].1, now - SecondsPerDay, now - SecondsPerWeek);
    }
  }

  // ---------------------------------------------------------------- the mapper

  /** `SessionMapper`: the prefix table built once from the platform registry, and the
      mapping document in memory. `mappingsFile` is what session-mappings.json holds; a
      save whose write fails (`writeOk` false) leaves it as it was. */
  class SessionMapper {
    const platformPrefixes: seq<(string, string)>
    var mappings: MappingDocument
    var mappingsFile: Option<MappingDocument>

    /** `__init__`: builds the prefix table and loads the stored document. */
    constructor (cfg: PlatformsConfig, file: Option<MappingDocument>, now: int)
      ensures platformPrefixes == PrefixTable(PlatformNames(cfg))
      ensures mappings == LoadMappings(file, now)
      ensures mappingsFile == file
    {
      var prefixes := GeneratePlatformPrefixes(cfg);
      platformPrefixes := prefixes;
      mappings := LoadMappings(file, now);
      mappingsFile := file;
    }

    /** `_save_mappings`: stamps `last_updated` in memory, then writes the document. */
    method SaveMappings(now: int, writeOk: bool) returns (ok: bool)
      modifies this
      ensures mappings == old(mappings).(lastUpdated := Some(now))
      ensures mappingsFile == if writeOk then Some(mappings) else old(mappingsFile)
      ensures ok == writeOk
    {
      mappings := mappings.(lastUpdated := Some(now));
      if writeOk {
        mappingsFile := Some(mappings);
      }
      ok := writeOk;
    }

    /** `generate_dual_uuids`: `standardUuid` is the fresh `uuid4()`. The returned ids do
        not depend on whether the save succeeded. */
    method GenerateDualUuids(platform: string, standardUuid: string, now: int, writeOk: bool)
      returns (ids: DualIds)
      modifies this
      ensures mappings == Generated(old(mappings), platformPrefixes, platform, standardUuid, now).(lastUpdated := Some(now))
      ensures mappingsFile == if writeOk then Some(mappings) else old(mappingsFile)
      ensures var p := PrefixUuidFor(platformPrefixes, platform, standardUuid);
        ids == DualIds(standardUuid, p, p)
    {
      var prefix := PrefixFor(platformPrefixes, platform);
      var prefixUuid := TagUuid(prefix, standardUuid);
      mappings := mappings.(mappings := mappings.mappings[prefixUuid := ForwardRecord(standardUuid, platform, now, prefix, None)]);
      mappings := mappings.(reverseMappings := mappings.reverseMappings[standardUuid := ReverseRecord(prefixUuid, platform, now, prefix, None)]);
      var sessions := Get(mappings.platformSessions, platform).GetOr([]);
      var sessionInfo := SessionEntry(standardUuid, prefixUuid, now, Some(now), None);
      mappings := mappings.(platformSessions := Update(mappings.platformSessions, platform, sessions + [sessionInfo]));
      var _ := SaveMappings(now, writeOk);
      ids := DualIds(standardUuid, prefixUuid, prefixUuid);
    }

    /** `get_platform_from_session`, with its scan of the prefix table. */
    method GetPlatformFromSession(sessionId: string) returns (platform: Option<string>)
      ensures platform == PlatformOf(mappings, platformPrefixes, sessionId)
    {
      if sessionId in mappings.mappings {
        return Some(mappings.mappings[sessionId].platform);
      }
      if sessionId in mappings.reverseMappings {
        return Some(mappings.reverseMappings[sessionId].platform);
      }
      var prefix := SessionHead(sessionId);
      var i := 0;
      while i < |platformPrefixes|
        invariant 0 <= i <= |platformPrefixes|
        invariant forall j :: 0 <= j < i ==> platformPrefixes[j].1 != prefix
      {
        var platformKey := platformPrefixes[i].0;
        var platformPrefix := platformPrefixes[i].1;
        if prefix == platformPrefix {
          HeuristicFirstMatch(platformPrefixes, prefix, i);
          return Some(platformKey);
        }
        i := i + 1;
      }
      return None;
    }

    /** `update_session_activity`: false when the id has no platform or no standard UUID;
        otherwise the stamped document is saved and the save's result returned. */
    method UpdateSessionActivity(sessionId: string, now: int, writeOk: bool) returns (ok: bool)
      modifies this
      ensures !ActivityApplies(old(mappings), platformPrefixes, sessionId) ==>
        !ok && mappings == old(mappings) && mappingsFile == old(mappingsFile)
      ensures ActivityApplies(old(mappings), platformPrefixes, sessionId) ==>
        && mappings == Touched(old(mappings), sessionId, PlatformOf(old(mappings), platformPrefixes, sessionId).value,
                               StandardUuid(old(mappings), sessionId).value, now).(lastUpdated := Some(now))
        && mappingsFile == (if writeOk then Some(mappings) else old(mappingsFile))
        && ok == writeOk
    {
      var platform := GetPlatformFromSession(sessionId);
      if !Truthy(platform) {
        return false;
      }
      var standardUuid := StandardUuid(mappings, sessionId);
      if !Truthy(standardUuid) {
        return false;
      }
      var std := standardUuid.value;
      ghost var doc := mappings;
      if sessionId in mappings.mappings {
        var m := mappings.mappings;
        mappings := mappings.(mappings := m[sessionId := m[sessionId].(lastActive := Some(now))]);
      }
      if std in mappings.reverseMappings {
        var rv := mappings.reverseMappings;
        mappings := mappings.(reverseMappings := rv[std := rv[std].(lastActive := Some(now))]);
      }
      var sessionsOf := Get(mappings.platformSessions, platform.value);
      if sessionsOf.Some? {
        var sessions := sessionsOf.value;
        ghost var original := sessions;
        var i := 0;
        while i < |sessions|
          invariant 0 <= i <= |sessions|
          invariant sessions == original
          invariant forall j :: 0 <= j < i ==> sessions[j].standardUuid != std
        {
          if sessions[i].standardUuid == std {
            assert FirstWithStandard(original, std) == i;
            sessions := sessions[i := sessions[i].(lastActive := Some(now))];
            break;
          }
          i := i + 1;
        }
        assert sessions == TouchFirst(original, std, now);
        mappings := mappings.(platformSessions := Update(mappings.platformSessions, platform.value, sessions));
      }
      assert mappings == Touched(doc, sessionId, platform.value, std, now);
      ok := SaveMappings(now, writeOk);
    }

    /** `get_recent_sessions`: tags every stored entry with its platform (in memory, not
        saved), and returns the first `limit` of all of them, newest first. */
    method GetRecentSessions(limit: int := 20) returns (recent: seq<SessionEntry>)
      modifies this
      ensures mappings == old(mappings).(platformSessions := TaggedSessions(old(mappings.platformSessions)))
      ensures mappingsFile == old(mappingsFile)
      ensures recent == PyPrefix(SortByRecency(AllEntries(mappings.platformSessions)), limit)
    {
      var tagged, allSessions := TagAllSessions(mappings.platformSessions);
      mappings := mappings.(platformSessions := tagged);
      recent := PyPrefix(SortByRecency(allSessions), limit);
    }

    /** `cleanup_old_sessions`: drops what was last active more than `days` days ago and
        returns how many list entries went; the document is saved only when that count is
        positive, so forward and reverse records dropped alone stay unsaved. */
    method CleanupOldSessions(now: int, writeOk: bool, days: int := 30) returns (cleanedCount: nat)
      modifies this
      ensures cleanedCount == ExpiredCount(old(mappings.platformSessions), Cutoff(days, now))
      ensures cleanedCount == 0 ==> mappings == Cleaned(old(mappings), Cutoff(days, now)) && mappingsFile == old(mappingsFile)
      ensures cleanedCount > 0 ==>
        mappings == Cleaned(old(mappings), Cutoff(days, now)).(lastUpdated := Some(now))
        && mappingsFile == if writeOk then Some(mappings) else old(mappingsFile)
    {
      var cutoffTime := Cutoff(days, now);
      var kept;
      kept, cleanedCount := CleanPlatformSessions(mappings.platformSessions, cutoffTime);
      var mappingsToRemove, reverse := RemoveExpiredMappings(mappings.mappings, mappings.reverseMappings, cutoffTime);
      mappings := mappings.(platformSessions := kept, mappings := mappings.mappings - mappingsToRemove,
                            reverseMappings := reverse);
      if cleanedCount > 0 {
        var _ := SaveMappings(now, writeOk);
      }
    }

    /** `get_statistics`: counts only, nothing changes. */
    method GetStatistics(now: int) returns (stats: Statistics)
      ensures stats == StatisticsOf(mappings, now)
    {
      var ps := mappings.platformSessions;
      var platformStats: seq<(string, PlatformStat)> := [];
      var i := 0;
      while i < |ps|
        invariant 0 <= i <= |ps|
        invariant |platformStats| == i
        invariant forall k :: 0 <= k < i ==> platformStats[k] == (ps[k].0, StatOf(ps[k].1, now))
      {
        var platform := ps[i].0;
        var sessions := ps[i].1;
        var active24h := 0;
        var active7d := 0;
        var j := 0;
        while j < |sessions|
          invariant 0 <= j <= |sessions|
          invariant active24h == |KeepRecent(sessions[..j], now - SecondsPerDay)|
          invariant active7d == |KeepRecent(sessions[..j], now - SecondsPerWeek)|
        {
          assert sessions[..j + 1][..j] == sessions[..j];
          var lastActive := ActiveAt(sessions[j]);
          if now - lastActive <= SecondsPerDay {
            active24h := active24h + 1;
          }
          if now - lastActive <= SecondsPerWeek {
            active7d := active7d + 1;
          }
          j := j + 1;
        }
        assert sessions[..j] == sessions;
        platformStats := platformStats + [(platform, PlatformStat(|sessions|, active24h, active7d))];
        i := i + 1;
      }
      var platforms := seq(|ps|, k requires 0 <= k < |ps| => ps[k].0);
      stats := Statistics(|mappings.mappings|, platformStats, platforms,
                          mappings.createdAt, mappings.lastUpdated, mappings.version.GetOr("2.0"));
    }
  }

  lemma HeuristicFirstMatch(table: seq<(string, string)>, head: string, i: nat)
    requires i < |table| && table[i].1 == head
    requires forall j :: 0 <= j < i ==> table[j].1 != head
    ensures HeuristicPlatform(table, head) == Some(table[i].0)
  {
    var r := HeuristicPlatform(table, head);
    var k :| 0 <= k < |table| && table[k] == (r.value, head) && forall j :: 0 <= j < k ==> table[j].1 != head;
    if k < i {
    } else if i < k {
    }
  }

  /** The loops of `get_recent_sessions`: every entry tagged with its platform, and all
      tagged entries in platform order. */
  method TagAllSessions(ps: seq<(string, seq<SessionEntry>)>)
    returns (tagged: seq<(string, seq<SessionEntry>)>, allSessions: seq<SessionEntry>)
    ensures tagged == TaggedSessions(ps)
    ensures allSessions == AllEntries(tagged)
  {
    tagged := [];
    allSessions := [];
    var i := 0;
    while i < |ps|
      invariant 0 <= i <= |ps|
      invariant tagged == TaggedSessions(ps[..i])
      invariant allSessions == AllEntries(tagged)
    {
      var platform := ps[i].0;
      var sessions := TagSessions(ps[i].1, platform);
      var next := tagged + [(platform, sessions)];
      assert next[..|next| - 1] == tagged;
      allSessions := allSessions + sessions;
      TaggedSessionsSnoc(ps, i);
      tagged := next;
      i := i + 1;
    }
    assert ps[..i] == ps;
  }

  /** The inner loop of `get_recent_sessions`: one platform's entries, tagged. */
  method TagSessions(sessions: seq<SessionEntry>, platform: string) returns (tagged: seq<SessionEntry>)
    ensures tagged == TagList(sessions, platform)
  {
    tagged := [];
    var j := 0;
    while j < |sessions|
      invariant 0 <= j <= |sessions|
      invariant tagged == TagList(sessions[..j], platform)
    {
      tagged := tagged + [sessions[j].(platform := Some(platform))];
      j := j + 1;
    }
    assert sessions[..j] == sessions;
  }

  lemma TaggedSessionsSnoc(ps: seq<(string, seq<SessionEntry>)>, i: nat)
    requires i < |ps|
    ensures TaggedSessions(ps[..i + 1]) == TaggedSessions(ps[..i]) + [(ps[i].0, TagList(ps[i].1, ps[i].0))]
  {
  }

  /** The platform-list loop of `cleanup_old_sessions`: filters each list, drops the
      emptied platforms and counts the entries removed. */
  method CleanPlatformSessions(ps: seq<(string, seq<SessionEntry>)>, cutoffTime: int)
    returns (kept: seq<(string, seq<SessionEntry>)>, cleanedCount: nat)
    ensures kept == CleanSessions(ps, cutoffTime)
    ensures cleanedCount == ExpiredCount(ps, cutoffTime)
  {
    kept := [];
    cleanedCount := 0;
    var i := 0;
    while i < |ps|
      invariant 0 <= i <= |ps|
      invariant kept == CleanSessions(ps[..i], cutoffTime)
      invariant cleanedCount == ExpiredCount(ps[..i], cutoffTime)
    {
      var platform := ps[i].0;
      var sessions := ps[i].1;
      var originalCount := |sessions|;
      var recent := KeepRecent(sessions, cutoffTime);
      KeepRecentSplit(sessions, cutoffTime);
      cleanedCount := cleanedCount + (originalCount - |recent|);
      assert ps[..i + 1][..i] == ps[..i];
      if recent != [] {
        kept := kept + [(platform, recent)];
      }
      i := i + 1;
    }
    assert ps[..i] == ps;
  }

  /** The mapping loop of `cleanup_old_sessions`: collects the expired prefix UUIDs and
      deletes the reverse records of their non-empty standard UUIDs. */
  method RemoveExpiredMappings(forward: map<string, ForwardRecord>, reverseMappings: map<string, ReverseRecord>,
                               cutoffTime: int)
    returns (mappingsToRemove: set<string>, reverse: map<string, ReverseRecord>)
    ensures mappingsToRemove == ExpiredIds(forward, cutoffTime)
    ensures reverse == reverseMappings - ExpiredStandards(forward, cutoffTime)
  {
    mappingsToRemove := {};
    reverse := reverseMappings;
    var remaining := forward.Keys;
    ghost var standards: set<string> := {};
    while remaining != {}
      invariant remaining <= forward.Keys
      invariant mappingsToRemove == set k | k in forward && k !in remaining && RecordActiveAt(forward[k]) < cutoffTime
      invariant standards == set k | k in forward && k !in remaining && RecordActiveAt(forward[k]) < cutoffTime
                                     && forward[k].standardUuid != "" :: forward[k].standardUuid
      invariant reverse == reverseMappings - standards
      decreases remaining
    {
      var sessionId :| sessionId in remaining;
      var mapping := forward[sessionId];
      if RecordActiveAt(mapping) < cutoffTime {
        var standardUuid := mapping.standardUuid;
        mappingsToRemove := mappingsToRemove + {sessionId};
        if standardUuid != "" {
          standards := standards + {standardUuid};
          if standardUuid in reverse {
            reverse := reverse - {standardUuid};
          }
        }
      }
      remaining := remaining - {sessionId};
    }
  }
}
