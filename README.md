# cc-launcher session identity and platform resolution, in Dafny

This project is a Dafny model of the core of cc-launcher, a wrapper that starts Claude Code
against one of several AI-service "platforms". It covers:

- the platform registry (`Config`, cc_launcher/core/config.py): the platforms document,
  its built-in default, the enabled-platform filter, alias lookup and key validation;
- platform selection (`Detector`, cc_launcher/detector/platform.py): alias resolution,
  the availability rule, the default-selection fallback chain, listing, validation and
  status;
- the environment builder (`Environment`, cc_launcher/core/environment.py): which
  variables are scrubbed, which are derived from a profile (credential precedence, model
  mirroring, the token limit), and the child process environment;
- the session mapper (`SessionMapping`, class `SessionMapper`,
  cc_launcher/core/session_mapper.py):
  - the sorted, two-digit platform prefix table;
  - dual-UUID generation, in which the prefix UUID is the standard UUID with its first two
    characters replaced by the platform prefix;
  - the forward and reverse maps and the per-platform session lists;
  - lookups, activity stamping, newest-first listing, age-based cleanup and statistics;
- the session manager (`Session`, class `SessionManager`, cc_launcher/core/session.py):
  - choosing between continuing the last session and creating a new one;
  - the fallback creator with its static prefix table;
  - the version-1 session store and its cleanup;
- terminal colouring (`Colors`, cc_launcher/utils/colors.py): the ANSI codes and what
  `ColorPrinter` writes.

Two modules support the rest:

- `Text` models the Python string operations the core relies on:
  - `str.lower` on ASCII;
  - string ordering and `sorted`;
  - `f"{i:02d}"`, `str(int)` and `int(str)`;
  - slices.
- `Assoc` models Python dictionaries, keeping their insertion order, as sequences of
  key/value pairs.

Modelling choices:

- Timestamps are integers in seconds. ISO timestamps of one format compare in the same order.
- Fresh UUIDs, the current time and whether a file write succeeds (`writeOk`) are parameters.
- Each JSON file is a field holding a document value. `None` means the file is missing or
  unreadable.
- The manager's v1 store (`~/.claude/cache/session-mappings.json`) and the mapper's
  document (`~/.claude/cache/sessions/session-mappings.json`) are different files, so they
  are separate fields.

Points of the code's own rules worth stating plainly:

- Any one non-empty credential of `api_key`, `auth_token` and `login_token` suffices, not
  exactly one, and a non-empty `name` is also required (`Detector.IsPlatformAvailable`,
  `Detector.SeveralCredentialsAreAccepted`).
- An explicit request fails outright only when it resolves to an existing platform that is
  unavailable (`Detector.UnavailableRequestHasNoFallback`). A request that names no
  configured platform falls through to default selection
  (`Detector.UnknownRequestFallsThrough`).
- `SessionManager.cleanup_old_sessions` only filters the v1 store by `created_timestamp`.
  It neither calls the mapper's cleanup nor touches the last-session files
  (`Session.SessionManager.CleanupOldSessions`).

Properties of the code that the proofs bring out:

- Activity stamped through a standard UUID refreshes the reverse record but not the forward
  record. A later cleanup whose cutoff falls between the two times then drops both mapping
  records of a session that was just used
  (`SessionMapping.StampByStandardUuidLeavesForwardRecordStale`).
- Mapper cleanup saves only when list entries were removed. Mapping records dropped on their
  own stay unsaved (`SessionMapping.SessionMapper.CleanupOldSessions`).
- Sessions created through the mapper are never written to the v1 store, but
  `get_last_session` looks there. So a new session can be continued only if its id
  happened to be stored already (`Session.NewSessionIsContinuableOnlyIfStored`).
- The static fallback table and the generated table disagree on the default platforms: the
  generated one gives deepseek 01 and gaccode 02 (`Session.StaticPrefixesDisagreeWithGenerated`).
- A standard UUID that is also another session's prefix UUID reads as that session's UUID
  (`SessionMapping.StandardUuidCollision`).

## Model

| member | source | states |
|---|---|---|
| Config.GetPlatformsConfig | cc_launcher/core/config.py:68-94 | the stored platforms document, or the built-in default when the file is missing or unreadable |
| Config.GetPlatformConfig | cc_launcher/core/config.py:117-120 | a profile exactly when the key is configured (exact, case-sensitive key), and then the profile stored under it |
| Config.GetEnabledPlatforms | cc_launcher/core/config.py:138-154 | the platforms that are enabled and have some non-empty credential, in file order; URL, model and name are not consulted |
| Config.ResolvePlatformAlias | cc_launcher/core/config.py:156-160 | the alias target when the exact name is an alias, otherwise the name itself; existence is not checked |
| Config.ValidatePlatformConfig | cc_launcher/core/config.py:162-180 | true iff the platform exists, the keys name, api_base_url, model and enabled are present, and some credential is non-empty |
| Config.DisabledPlatformCanValidate | cc_launcher/core/config.py:164-180 | presence is all that is asked of `enabled`: a profile with `enabled: false` validates |
| Config.DefaultsHaveNoEnabledPlatforms | cc_launcher/core/config.py:70-93 | the built-in document has platforms gaccode and deepseek and default gaccode; with their empty credentials none is enabled-with-auth and none validates |
| Detector.ResolvePlatformAlias | cc_launcher/detector/platform.py:53-64 | None for an absent or empty request; otherwise the aliased lower-cased token, kept only when it is a configured platform |
| Detector.IsPlatformAvailable | cc_launcher/detector/platform.py:66-93 | the availability rule: enabled, some non-empty credential, and a non-empty name, base URL and model (its consequences are the two rows below and `Environment.AvailableIffValidAndEnabled`) |
| Detector.SeveralCredentialsAreAccepted | cc_launcher/detector/platform.py:66-93 | a profile with all three credentials set is available: the rule asks for any credential, not exactly one |
| Detector.AvailableImpliesRegistryChecks | cc_launcher/detector/platform.py:66-93 | an available profile is enabled with a credential and has every key the registry's validation asks for |
| Detector.FirstAvailable | cc_launcher/detector/platform.py:107-110 | nothing iff no platform is available; otherwise an available platform with no available platform before it |
| Detector.DefaultChoice | cc_launcher/detector/platform.py:95-118 | the chosen platform is configured and available; nothing iff none is available; a usable configured default is chosen first, and otherwise the first available platform in stored order |
| Detector.SelectDefaultPlatform | cc_launcher/detector/platform.py:95-118 | the loop with early return chooses exactly the default choice |
| Detector.FirstAvailableIsFirst | cc_launcher/detector/platform.py:107-110 | the first available index found by a scan is the first available platform |
| Detector.Detection | cc_launcher/detector/platform.py:20-51 | a result is always configured and available; an unresolved request gives the default choice; a resolved one gives that platform when available and nothing otherwise |
| Detector.DetectPlatform | cc_launcher/detector/platform.py:20-51 | the method returns exactly the detection result |
| Detector.UnavailableRequestHasNoFallback | cc_launcher/detector/platform.py:36-44 | a request for an existing, unavailable platform yields nothing even when another platform is available |
| Detector.UnknownRequestFallsThrough | cc_launcher/detector/platform.py:34-47 | a request naming no configured platform behaves exactly like no request |
| Detector.ListAvailablePlatforms | cc_launcher/detector/platform.py:120-140 | the available platforms in stored order |
| Detector.ValidatePlatformConfig | cc_launcher/detector/platform.py:142-161 | true iff the platform exists under exactly that key and is available |
| Detector.ValidateIffListed | cc_launcher/detector/platform.py:142-161 | a platform validates iff it is among the listed available platforms |
| Detector.GetPlatformStatus | cc_launcher/detector/platform.py:163-208 | all flags false with the given name for an unknown platform; for a configured one, the profile's name (else the key), `enabled` as stored (false when absent), `has_auth` iff some credential, `configured` iff base URL and model are non-empty, and `available` iff validation holds |
| Environment.PlatformEnvVars | cc_launcher/core/environment.py:94-148 | exactly one credential is passed on, by precedence api_key, then auth_token, then login_token (as the API key), and the other credential variable is blanked; no credential variables without a credential; the base URL iff it is non-empty; the model mirrored into all four model variables; the small model (or the model when the key is absent) iff non-empty; the token limit iff non-zero; the Git Bash path iff found; no other variable |
| Environment.ValidateEnvironment | cc_launcher/core/environment.py:224-262 | the rule: some non-empty credential, a non-empty base URL and a non-empty model (tied to the derived variables by the next two rows) |
| Environment.MaxOutputTokensRoundTrip | cc_launcher/core/environment.py:133-137 | the token limit reaches the child as a decimal string that parses back to the limit |
| Environment.ValidateIffDerivedComplete | cc_launcher/core/environment.py:224-262 | a profile validates iff the derived variables carry a non-empty credential, a base URL and a model |
| Environment.AvailableIffValidAndEnabled | cc_launcher/core/environment.py:224-262 | the detector's availability is this validation plus `enabled` and a non-empty name |
| Environment.DeleteEach | cc_launcher/core/environment.py:84-89 | the listed names leave the environment, every other variable is unchanged, and the report lists exactly the deleted names that were set |
| Environment.ClearExistingEnvVars | cc_launcher/core/environment.py:50-92 | the process environment loses exactly the listed variables; the report names exactly those that were set |
| Environment.SetupEnvironment | cc_launcher/core/environment.py:24-48 | the environment is scrubbed and the returned variables are those derived from the profile |
| Environment.CreateSubprocessEnv | cc_launcher/core/environment.py:204-222 | the child environment has every inherited and every derived name; derived values win, other inherited values are kept |
| Environment.ScrubbedChildHasNoStaleSettings | cc_launcher/core/environment.py:204-222 | after a scrub, a scrubbed name reaches the child iff the profile derives it, and then with the derived value |
| Colors.SgrIsEscapeSequence | cc_launcher/utils/colors.py:16-40 | every colour code is one escape sequence (ESC, no `m` inside, closing `m`) |
| Colors.ColorPrinter.Create | cc_launcher/utils/colors.py:63-73 | an explicit `enabled` wins; None defers to terminal detection |
| Colors.ColorPrinter.Colorize | cc_launcher/utils/colors.py:75-94 | the text unchanged when disabled; otherwise exactly the colour, BOLD when and only when asked for, the text, and RESET |
| Colors.ColorPrinter.Print | cc_launcher/utils/colors.py:96-107 | exactly the coloured text, BOLD when asked for, RESET, then `end` (a newline by default); the bare text and `end` when disabled |
| Colors.ColorPrinter.Success | cc_launcher/utils/colors.py:109-111 | green, bold only when asked, then a newline; the bare text when disabled |
| Colors.ColorPrinter.Error | cc_launcher/utils/colors.py:113-115 | red, bold unless asked not to be, then a newline; the bare text when disabled |
| Colors.ColorPrinter.Warning | cc_launcher/utils/colors.py:117-119 | yellow, bold only when asked, then a newline; the bare text when disabled |
| Colors.ColorPrinter.Info | cc_launcher/utils/colors.py:121-123 | cyan, bold only when asked, then a newline; the bare text when disabled |
| Colors.ColorPrinter.Debug | cc_launcher/utils/colors.py:125-127 | grey, bold only when asked, then a newline; the bare text when disabled |
| Colors.ColorPrinter.Header | cc_launcher/utils/colors.py:129-131 | always bold magenta, then a newline; the bare text when disabled |
| Colors.ColorPrinter.Highlight | cc_launcher/utils/colors.py:133-135 | blue and never bold, then a newline; the bare text when disabled |
| Colors.PrintShowsPlainText | cc_launcher/utils/colors.py:96-107 | stripped of escape sequences, what is printed is the text and the line ending, whatever the colour and weight |
| Colors.MessagesShowTheirText | cc_launcher/utils/colors.py:109-134 | each message kind shows exactly its text and a newline on a terminal |
| Text.SortStrings | cc_launcher/core/session_mapper.py:45 | `sorted`: ascending order and a permutation of the input |
| Text.ZeroPad2Value | cc_launcher/core/session_mapper.py:48-50 | `f"{n:02d}"` reads back as n, and has two digits below 100 |
| Text.ZeroPad2Injective | cc_launcher/core/session_mapper.py:48-50 | different numbers get different `f"{n:02d}"` strings |
| Text.IntToDecimalRoundTrip | cc_launcher/core/environment.py:133-137 | `int(str(n)) == n` for every integer |
| SessionMapping.LoadMappings | cc_launcher/core/session_mapper.py:55-77 | the stored document, or an empty one stamped now with version 2.0 |
| SessionMapping.SessionMapper.constructor | cc_launcher/core/session_mapper.py:21-34 | the prefix table is built from the registry and the stored document is loaded |
| SessionMapping.GeneratePlatformPrefixes | cc_launcher/core/session_mapper.py:36-53 | the loop builds exactly the prefix table of the registry's platform names |
| SessionMapping.PrefixTableOrder | cc_launcher/core/session_mapper.py:45-50 | the table lists every platform name once, in ascending order |
| SessionMapping.PrefixTableNumbering | cc_launcher/core/session_mapper.py:48-50 | the prefix at position i is the number i + 1 |
| SessionMapping.PrefixTableDistinct | cc_launcher/core/session_mapper.py:45-50 | distinct positions get distinct prefixes; below 100 platforms each prefix is two digits |
| SessionMapping.DefaultPrefixTable | cc_launcher/core/session_mapper.py:36-53 | the built-in registry's prefix table is deepseek 01, gaccode 02 |
| SessionMapping.PrefixFor | cc_launcher/core/session_mapper.py:115-116 | the lower-cased platform's table entry, else "xx" |
| SessionMapping.TagUuid | cc_launcher/core/session_mapper.py:117-118 | the tagged id starts with the prefix and agrees with the standard UUID from position 2 on |
| SessionMapping.TagUuidAgreesAfterPrefix | cc_launcher/core/session_mapper.py:117-118 | with a two-character prefix, the tagged id has the standard id's length and differs at most in the first two characters |
| SessionMapping.Generated | cc_launcher/core/session_mapper.py:121-146 | the forward record names the standard UUID and platform, the reverse record names the prefix UUID and platform, and no other record changes |
| SessionMapping.GeneratedSessionLists | cc_launcher/core/session_mapper.py:136-146 | the platform's list grows by exactly the new entry at its end; other platforms' lists are unchanged |
| SessionMapping.GeneratedKeepsAgreement | cc_launcher/core/session_mapper.py:121-133 | recording a session with two new ids keeps the forward and reverse maps inverse |
| SessionMapping.SessionMapper.SaveMappings | cc_launcher/core/session_mapper.py:79-99 | `last_updated` is stamped; the file receives the document only when the write succeeds; the result says which |
| SessionMapping.SessionMapper.GenerateDualUuids | cc_launcher/core/session_mapper.py:101-157 | the document becomes the generated one, stamped; the ids returned are the standard UUID and twice the prefix UUID |
| SessionMapping.HeuristicPlatform | cc_launcher/core/session_mapper.py:188-193 | nothing iff no prefix matches; otherwise the platform of the first matching prefix |
| SessionMapping.PlatformOf | cc_launcher/core/session_mapper.py:169-197 | the forward record's platform, else the reverse record's, else the prefix heuristic |
| SessionMapping.SessionMapper.GetPlatformFromSession | cc_launcher/core/session_mapper.py:169-197 | the scanning method returns exactly that platform |
| SessionMapping.HeuristicFirstMatch | cc_launcher/core/session_mapper.py:188-193 | the first matching prefix found by the scan gives the heuristic's platform |
| SessionMapping.DashedUnknownIdHasNoPlatform | cc_launcher/core/session_mapper.py:180-193 | an unknown dashed id whose first segment is not two characters (a UUID) has no platform |
| SessionMapping.StandardUuid | cc_launcher/core/session_mapper.py:199-221 | the forward record's standard UUID; else the id itself when it is a reverse key; else nothing |
| SessionMapping.PrefixUuid | cc_launcher/core/session_mapper.py:223-240 | the reverse record's prefix UUID exactly when the standard UUID is a reverse key |
| SessionMapping.StandardPrefixRoundTrip | cc_launcher/core/session_mapper.py:210-236 | with inverse maps, the prefix UUID of a standard UUID leads back to it, a reverse key reads as itself unless it is also a forward key of another session, and an id in neither map has neither form |
| SessionMapping.StandardUuidCollision | cc_launcher/core/session_mapper.py:210-217 | a standard UUID that is another session's prefix UUID reads as that session's standard UUID |
| SessionMapping.FirstWithStandard | cc_launcher/core/session_mapper.py:268-272 | the index of the first entry with the standard UUID, or the length when there is none |
| SessionMapping.TouchFirstStampsFirstMatch | cc_launcher/core/session_mapper.py:268-272 | the first entry with the standard UUID changes in `last_active` alone, which becomes now; every other entry, and every id and creation time, is kept |
| SessionMapping.TouchedChanges | cc_launcher/core/session_mapper.py:252-275 | the key sets and the metadata stay; the forward record (only when the id is a forward key) and the reverse record of its standard UUID change in `last_active` alone; every other record is kept; the platform's list becomes the stamped list and every other list is kept |
| SessionMapping.TouchedKeepsAgreement | cc_launcher/core/session_mapper.py:252-275 | stamping activity keeps the forward and reverse maps inverse |
| SessionMapping.SessionMapper.UpdateSessionActivity | cc_launcher/core/session_mapper.py:242-279 | false and nothing changed when the id has no platform or standard UUID; otherwise the stamped document is saved and the save's result returned |
| SessionMapping.StampByStandardUuidLeavesForwardRecordStale | cc_launcher/core/session_mapper.py:261-265 | stamping through a standard UUID leaves the forward record's time, so a cleanup between the two times drops both records of a session just used |
| SessionMapping.InsertByRecency | cc_launcher/core/session_mapper.py:296-300 | inserting into a newest-first list keeps it newest first and adds exactly the new entry |
| SessionMapping.SortByRecency | cc_launcher/core/session_mapper.py:296-300 | newest first by `last_active`, else `created_at`, and a permutation of the input |
| SessionMapping.NewestPrefixIsMostRecent | cc_launcher/core/session_mapper.py:296-302 | the first `limit` of the sorted list are drawn from the list, number `min(limit, length)`, and no entry left out is more recent than one returned |
| SessionMapping.PlatformSessions | cc_launcher/core/session_mapper.py:281-306 | nothing for an unknown platform; otherwise at most `limit` of its sessions, newest first, none left out more recent than one returned |
| SessionMapping.TagList | cc_launcher/core/session_mapper.py:321-323 | every entry tagged with the platform it is listed under, nothing else changed |
| SessionMapping.TaggedSessions | cc_launcher/core/session_mapper.py:320-323 | every list tagged with its own platform, in order |
| SessionMapping.TaggedEntriesNameTheirPlatform | cc_launcher/core/session_mapper.py:320-323 | every entry of the combined list names a platform it was listed under, and none is lost |
| SessionMapping.TaggedCount | cc_launcher/core/session_mapper.py:320-323 | tagging keeps the number of entries |
| SessionMapping.TagAllSessions | cc_launcher/core/session_mapper.py:318-323 | the loops tag every list and collect all tagged entries in platform order |
| SessionMapping.TagSessions | cc_launcher/core/session_mapper.py:321-323 | the inner loop tags one platform's entries |
| SessionMapping.SessionMapper.GetRecentSessions | cc_launcher/core/session_mapper.py:308-335 | the stored lists are tagged in memory and not saved; the result is the first `limit` of all entries, newest first |
| SessionMapping.KeepRecent | cc_launcher/core/session_mapper.py:357-360 | every entry kept is active at or after the cutoff, and none is added |
| SessionMapping.KeepRecentMembers | cc_launcher/core/session_mapper.py:357-360 | an entry is kept iff it is listed and active at or after the cutoff, and expired iff listed and active before it |
| SessionMapping.KeepRecentSplit | cc_launcher/core/session_mapper.py:354-362 | kept and expired entries together are exactly the list |
| SessionMapping.KeepRecentMonotone | cc_launcher/core/session_mapper.py:357-360 | a later cutoff keeps no more entries |
| SessionMapping.KeepRecentAll | cc_launcher/core/session_mapper.py:357-360 | a list already recent is kept whole and nothing expires |
| SessionMapping.CleanSessions | cc_launcher/core/session_mapper.py:353-366 | every remaining list is non-empty and recent, and no platform is added |
| SessionMapping.CleanSessionsGet | cc_launcher/core/session_mapper.py:353-366 | each platform's list becomes exactly its recent part, and a platform stays iff some of its sessions are recent |
| SessionMapping.ExpiredCountIsRemoved | cc_launcher/core/session_mapper.py:350-366 | the count reported is the number of list entries removed |
| SessionMapping.CleanSessionsIdempotent | cc_launcher/core/session_mapper.py:353-366 | a second cleanup at the same cutoff changes nothing and counts nothing |
| SessionMapping.CleanPlatformSessions | cc_launcher/core/session_mapper.py:350-366 | the loop leaves exactly the cleaned lists and counts the expired entries |
| SessionMapping.RemoveExpiredMappings | cc_launcher/core/session_mapper.py:369-381 | the loop collects exactly the expired prefix UUIDs and deletes exactly the reverse records of their non-empty standard UUIDs |
| SessionMapping.Cleaned | cc_launcher/core/session_mapper.py:347-381 | every remaining forward record is recent, every recent one is kept unchanged, and no forward key is added; the reverse partner of every expired record is gone, every other reverse record is kept, and no reverse key is added; the session lists are the cleaned lists; the metadata stays |
| SessionMapping.CleanedKeepsAgreement | cc_launcher/core/session_mapper.py:369-381 | cleanup keeps the maps inverse when no record has an empty standard UUID |
| SessionMapping.SessionMapper.CleanupOldSessions | cc_launcher/core/session_mapper.py:337-392 | `days` defaults to 30; the count is the number of list entries removed; the document becomes the cleaned one, and is stamped and saved only when the count is positive |
| SessionMapping.StatisticsBounds | cc_launcher/core/session_mapper.py:401-430 | one entry per listed platform, in order, with 24-hour count <= 7-day count <= total; the session total counts forward records |
| SessionMapping.SessionMapper.GetStatistics | cc_launcher/core/session_mapper.py:394-434 | the nested counting loops give exactly the statistics of the document |
| Session.LoadSessionMappings | cc_launcher/core/session.py:185-203 | the stored v1 document, or an empty version 1.0 one created now |
| Session.SessionInfoIn | cc_launcher/core/session.py:161-170 | a record exactly when the id is a key of the v1 store, and then the stored one |
| Session.SessionManager.GetSessionInfo | cc_launcher/core/session.py:161-170 | the record stored under the id in the current v1 store |
| Session.LastSessionOf | cc_launcher/core/session.py:144-159 | a session iff the platform's last-session file names a non-empty id that is a key of the v1 store, and then that record |
| Session.SessionManager.GetLastSession | cc_launcher/core/session.py:144-159 | the method returns exactly that session |
| Session.SavedRecord | cc_launcher/core/session.py:172-183 | the loaded v1 document with the record added under the id, every other record kept, `last_updated` stamped, and version, `created` and `last_cleanup` kept |
| Session.SessionManager.SaveSessionMapping | cc_launcher/core/session.py:172-183 | the file receives that document only when the write succeeds, and the last-session files are untouched |
| Session.SessionManager.UpdateLastSession | cc_launcher/core/session.py:205-213 | the platform's last-session file is overwritten when the write succeeds, and the v1 store is untouched |
| Session.FallbackSessionId | cc_launcher/core/session.py:112-118 | the static table's two-character prefix ("01" for a platform it lacks, case-sensitive) followed by the base UUID from position 2 on |
| Session.FallbackStoresBothIds | cc_launcher/core/session.py:112-138 | the fallback stores one record under both the prefixed and the base id, and nothing else in the v1 store changes |
| Session.SessionManager.FallbackCreateSession | cc_launcher/core/session.py:108-142 | the fallback's record is returned, stored under both ids and made the platform's last session |
| Session.StaticPrefixesDisagreeWithGenerated | cc_launcher/core/session.py:24-31 | under the built-in registry the mapper gives deepseek 01 and gaccode 02, the static table the reverse |
| Session.StaticLookupIsCaseSensitive | cc_launcher/core/session.py:112-118 | "DeepSeek" gets 01 from the static fallback, and 01 (deepseek's) from the lower-casing mapper |
| Session.StaticTableMisses | cc_launcher/core/session.py:24-31 | a name whose first character starts no static key has no static prefix |
| Session.SessionManager.CreateNewSession | cc_launcher/core/session.py:76-106 | the session is the mapper's new prefix UUID and standard UUID; the mapper records it and its file is written when the mapper's save succeeds; the last-session file names it when that write succeeds; the v1 store is untouched |
| Session.SessionManager.CreateOrGetSession | cc_launcher/core/session.py:47-74 | when continuing and a last session exists, that session and nothing changed; otherwise the whole new-session record from the mapper, the mapper's document and file, and the platform's last-session file, each write succeeding or failing on its own |
| Session.NewSessionIsContinuableOnlyIfStored | cc_launcher/core/session.py:59-64 | a newly created session is found as the last session iff its id is already a v1 key |
| Session.CleanedStore | cc_launcher/core/session.py:218-236 | every remaining record was created at or after the cutoff (0 when missing), every such record is kept unchanged, `last_cleanup` is stamped, and version, `created` and `last_updated` are kept |
| Session.V1CleanupFacts | cc_launcher/core/session.py:218-236 | a record without `created_timestamp` goes at any positive cutoff, a second cleanup finds nothing, and kept plus removed is everything |
| Session.SessionManager.CleanupOldSessions | cc_launcher/core/session.py:215-239 | the count is the number of records created before the cutoff; the store is rewritten only when that count is positive |

## Left out

- launcher.py, cc_launcher/detector/claude.py and cc_launcher/utils/logger.py are not part
  of this model: they are argument parsing, process probing and logging, with no state of
  their own. Every logger call is dropped.
- File I/O is not modelled. JSON encoding, the `.json.backup` copy in `_save_mappings` and
  the locked `safe_json_read`/`safe_json_write` helpers become one document value per file.
  Each save succeeds or fails as a whole, by a `writeOk` parameter.
- `SessionManager.FallbackCreateSession`: the three saves share one `writeOk`. A run where
  one of its writes succeeds and another fails is not modelled. `CreateNewSession` and
  `CreateOrGetSession` take one flag for the mapper's save and another for the
  last-session write, so those two may fail independently.
- The `except` branches are not modelled. This covers `generate_dual_uuids`' fallback,
  which returns the same fresh UUID as all three ids. With typed documents no operation
  raises, so those branches are unreachable.
- As a consequence, `_create_new_session` always takes the mapper path. Its call to
  `_fallback_create_session` is never reached, although the fallback is modelled on its own.
- `Colors.is_supported`, which probes the terminal, becomes the `supported` parameter of
  `Colors.ColorPrinter.Create`.
- `ColorPrinter.print` and the message helpers return the text they would write instead of
  writing it.
- `_detect_git_bash_path` and the `os.name == 'nt'` test become the `gitBashPath`
  parameter.
- `uuid.uuid4()`, `datetime.now()` and `time.time()` are parameters.
  - `GetStatistics` takes one `now` for every platform, where the source reads the clock
    once per platform.
  - `datetime.fromisoformat` parsing is replaced by integer timestamps.
- `Text.Lower`: lower-cases ASCII letters only, not the rest of Unicode.
- `SessionMapping.SortByRecency`: the result is proved newest first and a permutation of its
  input. Python's sort is stable, and this model's insertion keeps equal entries in order
  too, but stability is not stated as a contract.
- The global `get_session_mapper()` singleton is an explicitly constructed `SessionMapper`
  passed to the `SessionManager` constructor.
- The optional `cc_status` base class is an external package and is not part of this
  model. Only the in-file `BaseConfigManager` fallback is modelled.
- Profiles keep only the keys the core reads. `max_output_tokens` is an integer. A
  non-integer value in the JSON is not modelled.
- Concurrency and file races are not modelled: the tool is single-process.
