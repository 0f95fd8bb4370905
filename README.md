# kiro.rs credential broker — a Dafny model

kiro.rs is a proxy that exposes an Anthropic-compatible Messages API and forwards requests to
Kiro accounts. Its core is a credential broker:

- **Token manager.** A `MultiTokenManager` holds a list of credential entries. It picks one per request. The pick follows a sticky session map, then the current credential, then the scheduling mode (round robin or priority fill). It refreshes expiring tokens, counts failures, disables a credential after three failures or when its quota runs out, and heals automatically disabled credentials when none is left.
- **Pools.** Credentials are grouped into pools. Each pool has its own enabled flag, scheduling mode, proxy and priority. A `PoolManager` builds one token manager per pool and routes each API key to its bound pool, to the default pool, or, with `auto`, to the enabled pool of best priority that still has credentials.
- **Admin side.**
  - API keys: create, update, delete, validate, mask.
  - CSRF tokens, with a periodic sweep.
  - Configuration: defaults, validation, partial update.
  - The health endpoint.
- **Request path.**
  - Session-id extraction.
  - History management: image placeholders, token estimation, truncation.
  - Request preparation.
  - The non-streaming response builder over decoded upstream events.
  - Token counting.
  - Provider resolution.
- **CLI.** It adds, deletes and imports credentials in the credentials file.

There is one Dafny module per source file.

- Code that changes a state in place is a `class`, whose fields are the source's fields:
  - `MultiTokenManager`, `PoolManager` and `PoolsConfig`;
  - `ApiKeyManager`, `CsrfManager` and the admin configuration state.
- Loops in the source are `while` loops with invariants. Each is proved against a specification function on values: the grouping loop of `reload` against `GroupByPool`, its runtime loop against `ReloadPlan`, a map from each pool id to the configuration and scheduler entries it ends up with.
- Pure code is functions and lemmas.

The following are parameters of the model:
- the clock (`now`, in seconds);
- the network (a refresh oracle);
- random values (key characters, CSRF token, system version);
- the SHA-256 digest, the tokenizer, the request converter, JSON parsing and web-search detection;
- the outcome of persisting to disk (`persisted` / `saveFailure`);
- the iteration order of the pool `HashMap` (`order`).

## Model

| member | source | states |
|---|---|---|
| TokenRefresh.IsTokenExpiringWithin | src/kiro/token_manager.rs:90-99 | an answer exists exactly when `expires_at` is present and well formed; the token then expires within the window iff its instant is at most `now + minutes*60` |
| TokenRefresh.IsTokenExpired | src/kiro/token_manager.rs:102-104 | a missing or unparsable expiry counts as expired; otherwise expired means within 5 minutes of `now` |
| TokenRefresh.IsTokenExpiringSoon | src/kiro/token_manager.rs:107-109 | a missing or unparsable expiry is not "expiring soon"; otherwise it means within 10 minutes |
| TokenRefresh.ExpiredImpliesExpiringSoon | src/kiro/token_manager.rs:102-109 | for a well-formed expiry, expired implies expiring soon |
| TokenRefresh.ValidateRefreshToken | src/kiro/token_manager.rs:112-132 | succeeds iff a non-empty refresh token passes the truncation check; a missing token and an empty token each give their own error; a truncated token's error carries its length |
| TokenRefresh.EndsWithTestIsSubsumed | src/kiro/token_manager.rs:122 | the `ends_with("...")` half of the truncation test is implied by the `contains("...")` half |
| TokenRefresh.RefreshFlow | src/kiro/token_manager.rs:135-160 | the IdC flow is chosen exactly for an `idc` method (ignoring ASCII case) or one of its aliases; with no method, exactly when a client id and client secret are both present |
| TokenRefresh.MergeRefreshResponse | src/kiro/token_manager.rs:215-231 | the merged credential takes the new access token and keeps every field the response omits; the refresh token, profile ARN (social only) and expiry change only when the response gives one; nothing else changes |
| TokenRefresh.RefreshToken | src/kiro/token_manager.rs:135-160 | an unusable refresh token fails with its validation error and the network is not consulted; success means the oracle answered and the result is the merged credential; IdC success implies client id and secret; a network failure is an error carrying the upstream message |
| TokenRefresh.ValidationErrorsDisable | src/kiro/token_manager.rs:837-858 | every refresh-token validation error is one of the errors that make the acquire loop disable the credential |
| Credentials.IdcIsNotAlias | src/kiro/model/credentials.rs:127-133 | the canonical `idc` is not itself an alias, so canonicalisation has a fixed point |
| Credentials.CanonicalizeAuthMethodValue | src/kiro/model/credentials.rs:127-133 | the IdC aliases become `idc` and every other value is unchanged; the result is never an alias |
| Credentials.CanonicalizeAuthMethodValueIdempotent | src/kiro/model/credentials.rs:127-133 | canonicalising twice equals canonicalising once |
| Credentials.CanonicalizeAuthMethod | src/kiro/model/credentials.rs:220-230 | only `auth_method` changes; presence is preserved; the result is canonical, and an already canonical credential is unchanged |
| Credentials.CanonicalizeAuthMethodIdempotent | src/kiro/model/credentials.rs:220-230 | canonicalising a credential twice equals once |
| Credentials.IntoSortedCredentials | src/kiro/model/credentials.rs:168-176 | the output is sorted by priority, is a stable permutation of the input (per-priority order is kept), and every credential's auth method is canonical |
| Sorting.SortStable | src/kiro/model/credentials.rs:170 | the priority sort keeps the input order among credentials of equal priority |
| Sorting.SortSortedPermutation | src/kiro/model/credentials.rs:170 | the priority sort yields a sorted permutation of its input |
| TokenManager.FindEnabled | src/kiro/token_manager.rs:783-803 | finds the first entry with the id that is not disabled, or reports that none exists |
| TokenManager.Enabled | src/kiro/token_manager.rs:879-888 | the enabled entries are exactly the non-disabled ones; the list is empty iff none is enabled |
| TokenManager.BestIndex | src/kiro/token_manager.rs:988-1008 | picks an eligible entry of minimal priority and the first among equals; none iff no entry is eligible |
| TokenManager.SelectByPriority | src/kiro/token_manager.rs:868-874 | yields no id iff every entry is disabled |
| TokenManager.SelectByPriorityIsBest | src/kiro/token_manager.rs:868-874 | the priority pick is an enabled entry whose priority is not beaten by any enabled entry, and earlier enabled entries have strictly larger numbers |
| TokenManager.RoundRobinPick | src/kiro/token_manager.rs:879-888 | with enabled entries, picks the one at `counter mod n` among them; none iff all are disabled |
| TokenManager.SelectorsNeverPickDisabled | src/kiro/token_manager.rs:868-888 | with unique ids, neither selector returns the id of a disabled entry |
| TokenManager.Heal | src/kiro/token_manager.rs:918-945 | self-healing maps every entry through the per-entry heal rule, keeping length and order |
| TokenManager.HealReenablesExactlyAutomatic | src/kiro/token_manager.rs:918-945 | healing re-enables exactly the entries disabled for too many failures or a failed refresh, and resets their counters; manual and quota disablements are untouched; afterwards some entry is selectable |
| TokenManager.ReportFailureEntries | src/kiro/token_manager.rs:1160-1218 | only the entry with the id changes, by one failure; an unknown id changes nothing |
| TokenManager.ThirdFailureDisables | src/kiro/token_manager.rs:1160-1218 | from a clean enabled entry, the first two failures leave it enabled (counts 1 and 2) and the third disables it for too many failures |
| TokenManager.ReportSuccessEntries | src/kiro/token_manager.rs:1145-1151 | success resets the failure count of the entry with that id only |
| TokenManager.QuotaEntries | src/kiro/token_manager.rs:1226-1272 | quota exhaustion disables exactly that entry, with reason quota exceeded and the failure count at the maximum |
| TokenManager.QuotaIsNotHealed | src/kiro/token_manager.rs:1226-1272 | a credential disabled for quota stays disabled through self-healing |
| TokenManager.DisableForRefresh | src/kiro/token_manager.rs:837-858 | a refresh failure disables exactly the entry with that id, with reason refresh failed |
| TokenManager.SetDisabledEntry | src/kiro/token_manager.rs:1353-1374 | disabling marks the entry manual and keeps its count; enabling clears the reason and the count |
| TokenManager.ResetEntry | src/kiro/token_manager.rs:1397-1411 | reset-and-enable leaves the entry enabled, with no failures and no reason |
| TokenManager.EnableEqualsReset | src/kiro/token_manager.rs:1353-1411 | enabling by `set_disabled(false)` has the same effect on an entry as `reset_and_enable` |
| TokenManager.MaxEntryId | src/kiro/token_manager.rs:1495-1543 | an upper bound of all entry ids; 0 for no entries |
| TokenManager.RemoveId | src/kiro/token_manager.rs:1561-1609 | the retained entries are exactly those with another id |
| TokenManager.RemoveIdKeepsUnique | src/kiro/token_manager.rs:1561-1609 | deleting keeps the ids unique |
| TokenManager.RemoveUniqueIdRemovesOne | src/kiro/token_manager.rs:1561-1609 | with unique ids, deleting removes precisely one entry at its position |
| TokenManager.ValidCredentials | src/kiro/token_manager.rs:539-568 | keeps exactly the credentials whose refresh token validates |
| TokenManager.PrepareCredential | src/kiro/token_manager.rs:577-609 | the prepared credential has the assigned id, its own priority and pool, and a canonical auth method |
| TokenManager.BuildEntries | src/kiro/token_manager.rs:577-677 | one fresh entry per valid credential, in order; explicit ids are kept and missing ids are numbered upwards from one above the largest present id |
| TokenManager.DuplicateIdsEmptyIffUnique | src/kiro/token_manager.rs:611-620 | no duplicate is reported iff the ids are unique |
| TokenManager.BuildEntriesUniqueIffExplicitDistinct | src/kiro/token_manager.rs:577-620 | the entries built at start-up have unique ids iff the explicit ids among the valid credentials are distinct; allocated ids never collide |
| TokenManager.HealIsAcquireStep | src/kiro/token_manager.rs:918-945 | healing is one of the steps the acquire loop may take: it keeps length, ids and credentials |
| TokenManager.DisableForRefreshIsAcquireStep | src/kiro/token_manager.rs:837-858 | disabling an enabled entry after a refresh failure is an acquire step |
| TokenManager.AcquireKeepsStep | src/kiro/token_manager.rs:770-863 | the relation "only acquire steps happened" is closed under one more step |
| TokenManager.MultiTokenManager.New | src/kiro/token_manager.rs:532-696 | counts the skipped credentials; fails exactly on duplicate ids and names them; on success the entries are the built ones, all enabled and clean, the counter is 0, the mode is round robin, the session map is empty, and the initial current id is that of the priority pick |
| TokenManager.MultiTokenManager.FilterValid | src/kiro/token_manager.rs:539-568 | the loop keeps the valid credentials and counts the others as skipped |
| TokenManager.MultiTokenManager.AllocateIds | src/kiro/token_manager.rs:577-609 | the id-allocation loop produces exactly the specified entries |
| TokenManager.MultiTokenManager.FindDuplicates | src/kiro/token_manager.rs:611-620 | the duplicate scan returns the specified duplicate list, empty iff the ids are unique |
| TokenManager.MultiTokenManager.TotalCount | src/kiro/token_manager.rs:716-718 | the number of entries |
| TokenManager.MultiTokenManager.AvailableCount | src/kiro/token_manager.rs:721-723 | at most the total; zero iff every entry is disabled |
| TokenManager.MultiTokenManager.CurrentCredentials | src/kiro/token_manager.rs:705-713 | the current entry's credentials, or the default credentials when the current id is gone |
| TokenManager.MultiTokenManager.ResolveProxyConfig | src/kiro/token_manager.rs:1636-1648 | a credential's own proxy wins; otherwise the global proxy |
| TokenManager.MultiTokenManager.ResetRoundRobinCounter | src/kiro/token_manager.rs:894-902 | the counter becomes 0 and nothing else changes |
| TokenManager.MultiTokenManager.SelectByRoundRobin | src/kiro/token_manager.rs:879-888 | returns the round-robin pick at the old counter and advances the counter only when a pick was possible |
| TokenManager.MultiTokenManager.SelectByMode | src/kiro/token_manager.rs:868-888 | dispatches on the mode; priority fill leaves the counter alone |
| TokenManager.MultiTokenManager.SelectAnyAvailable | src/kiro/token_manager.rs:908-961 | heals when nothing is enabled, then returns the best-priority enabled entry and makes it current, or fails when even healing leaves nothing |
| TokenManager.MultiTokenManager.TryEnsureToken | src/kiro/token_manager.rs:1018-1091 | only the credentials of the entry with that id may change, and only to the result of a refresh it needed; success yields a token that is not expired, and its proxy; a token that needs no refresh leaves the entries unchanged |
| TokenManager.MultiTokenManager.DisableOnRefreshFailure | src/kiro/token_manager.rs:837-858 | a disabling error disables the entry and resets the counter; any other error changes nothing |
| TokenManager.MultiTokenManager.ResolveTarget | src/kiro/token_manager.rs:805-816 | an enabled target is used as is; otherwise any available entry is chosen and the only changes are acquire steps |
| TokenManager.MultiTokenManager.AttemptOnce | src/kiro/token_manager.rs:770-858 | one turn of the acquire loop: an acquired context belongs to an enabled entry with a live token, and is the requested target when that target was enabled |
| TokenManager.MultiTokenManager.AcquireContext | src/kiro/token_manager.rs:757-863 | no entries fails with counts 0 and 0; a result is an enabled entry with a live token; failed attempts never exceed the entry count; the session map records the chosen id only on success; the first attempt honours a live session binding, or else the current id |
| TokenManager.MultiTokenManager.EvictSession | src/kiro/token_manager.rs:500-502 | a session entry may vanish from the cache; nothing else changes |
| TokenManager.MultiTokenManager.SelectHighestPriority | src/kiro/token_manager.rs:988-1008 | the current id becomes the priority pick when there is one |
| TokenManager.MultiTokenManager.ReportSuccess | src/kiro/token_manager.rs:1145-1151 | the entries become the success update and ids stay unique |
| TokenManager.MultiTokenManager.ReportFailure | src/kiro/token_manager.rs:1160-1218 | the entries take the failure update; the result says whether any entry is still enabled; on crossing the threshold the counter resets and the current id moves to the priority pick |
| TokenManager.MultiTokenManager.ReportQuotaExhausted | src/kiro/token_manager.rs:1226-1272 | the entries take the quota update; when it applies, the counter resets and the current id moves to the priority pick |
| TokenManager.MultiTokenManager.SwitchToNext | src/kiro/token_manager.rs:1277-1298 | switches to the best enabled entry other than the current one; otherwise it stays, and reports success iff the current entry is still enabled |
| TokenManager.MultiTokenManager.Snapshot | src/kiro/token_manager.rs:1318-1350 | one summary per entry with its id, flags, count and priority; the available count is the number of enabled entries and is zero iff none is enabled |
| TokenManager.MultiTokenManager.SetDisabled | src/kiro/token_manager.rs:1353-1374 | unknown id is not found; otherwise only that entry changes, the counter resets, and the result is Ok iff persisting succeeded |
| TokenManager.MultiTokenManager.SetPriority | src/kiro/token_manager.rs:1380-1394 | unknown id is not found; otherwise only that entry's priority changes and the current id moves to the priority pick |
| TokenManager.MultiTokenManager.ResetAndEnable | src/kiro/token_manager.rs:1397-1411 | unknown id is not found; otherwise only that entry is reset and enabled |
| TokenManager.MultiTokenManager.AddCredential | src/kiro/token_manager.rs:1495-1543 | a credential whose refresh fails is rejected with nothing changed; otherwise one entry is appended with an id above every existing id, holding the refreshed credential with its priority and canonical auth method |
| TokenManager.MultiTokenManager.DeleteCredential | src/kiro/token_manager.rs:1561-1609 | unknown id is not found; an enabled credential cannot be deleted; a disabled one is removed; the current id moves only if it was the deleted one, and becomes 0 when nothing is left |
| TokenManager.MultiTokenManager.SetSchedulingMode | src/kiro/token_manager.rs:1615-1625 | sets the mode and changes nothing else |
| PoolErrors.ClassificationIsExclusive | src/kiro/pool/error.rs:41-58 | at most one `is_*` predicate holds for any error, and exactly one for the four classified kinds |
| PoolErrors.PoolErrorText | src/kiro/pool/error.rs:5-37 | the display texts of the not-found, already-exists and cannot-delete-default errors |
| Pools.NewPool | src/kiro/pool/mod.rs:66-79 | a new pool is enabled, round robin, priority 0, with no description and no proxy |
| Pools.DefaultPool | src/kiro/pool/mod.rs:82-84 | the default pool is a new pool with the default id and name |
| Pools.WithDescription | src/kiro/pool/mod.rs:87-90 | sets the description and nothing else |
| Pools.WithSchedulingMode | src/kiro/pool/mod.rs:93-96 | sets the mode and nothing else |
| Pools.WithProxy | src/kiro/pool/mod.rs:99-109 | sets the three proxy fields, so the pool has a proxy, and nothing else |
| Pools.WithPriority | src/kiro/pool/mod.rs:112-115 | sets the priority and nothing else |
| Pools.BuildersCommute | src/kiro/pool/mod.rs:87-115 | builders touching different fields commute |
| Pools.GetPool | src/kiro/pool/mod.rs:173-175 | returns the first pool with the id, or none iff no pool has it |
| Pools.WithDefaultPool | src/kiro/pool/mod.rs:166-170 | afterwards a default pool exists; an existing one leaves the list unchanged, otherwise the default pool is put in front |
| Pools.WithDefaultPoolIdempotent | src/kiro/pool/mod.rs:166-170 | ensuring the default pool twice equals once |
| Pools.PoolsConfig.Default | src/kiro/pool/mod.rs:184-188 | the default configuration holds only the default pool |
| Pools.PoolsConfig.EnsureDefaultPool | src/kiro/pool/mod.rs:166-170 | the in-place insertion yields the ensured list |
| Pools.PoolsConfig.Get | src/kiro/pool/mod.rs:173-175 | finds a pool with the id, or none iff absent |
| Pools.DefaultConfigHasOnlyDefault | src/kiro/pool/mod.rs:184-188 | the default configuration has one pool, the default one, and lookup finds it |
| PoolRegistry.GroupByPool | src/kiro/pool_manager.rs:118-122 | every credential lands in the group of its pool id (the default pool when it has none), and groups hold nothing else |
| PoolRegistry.MergePoolUpdate | src/kiro/pool_manager.rs:343-396 | each field given in the update replaces the stored one, absent fields are kept, and id and creation time never change |
| PoolRegistry.MergePoolUpdateLaws | src/kiro/pool_manager.rs:343-396 | an empty update is the identity; an update never removes a proxy |
| PoolRegistry.DisableRequestOnlyFlipsEnabled | src/kiro/pool_manager.rs:421-429 | setting a pool's disabled flag changes only its enabled field |
| PoolRegistry.EnabledRuntimes | src/kiro/pool_manager.rs:237-264 | keeps exactly the enabled pools |
| PoolRegistry.FirstAvailable | src/kiro/pool_manager.rs:237-264 | the first pool that has an available credential, none iff none has one |
| PoolRegistry.AutoRouteIsBest | src/kiro/pool_manager.rs:237-264 | auto routing returns an enabled pool with an available credential whose priority is not beaten by any other such pool; none iff no enabled pool has an available credential |
| PoolRegistry.PoolSnapshotOf | src/kiro/pool_manager.rs:267-289 | a pool's snapshot carries its id, flags, priority, proxy presence and credential counts, and its available count is zero iff no credential is enabled |
| PoolRegistry.SnapshotAll | src/kiro/pool_manager.rs:267-289 | one snapshot per runtime, in order, each that runtime's snapshot record |
| PoolRegistry.EntriesKeepPool | src/kiro/pool_manager.rs:125-153 | a pool's token manager holds only credentials of that pool |
| PoolRegistry.PoolManager.ResolvePoolProxy | src/kiro/pool_manager.rs:174-185 | a pool proxy wins over the global proxy |
| PoolRegistry.GroupByPoolKeepsOrder | src/kiro/pool_manager.rs:118-122 | each group is exactly its pool's credentials in their sorted order, and a pool no credential names has no group |
| PoolRegistry.IdsBeforeMembers | src/kiro/pool_manager.rs:125-153 | an id is among the ids met after n pools exactly when one of the first n configured pools has it |
| PoolRegistry.LastIndex | src/kiro/pool_manager.rs:125-153 | the position of the last of the first n pools with an id, the one whose runtime `insert` keeps under that id |
| PoolRegistry.RemainingStep | src/kiro/pool_manager.rs:126-128 | taking the j-th pool's group out of the grouping leaves exactly the untouched groups of the ids not met yet |
| PoolRegistry.ReloadPlan | src/kiro/pool_manager.rs:125-153 | after n pools the plan holds exactly the ids of the first n configured pools |
| PoolRegistry.ReloadPlanLast | src/kiro/pool_manager.rs:125-153 | each planned id holds the configuration of the last configured pool with that id and the entries `new` makes of the group that pool took (the whole group for the first pool with the id, none for a repeat) |
| PoolRegistry.ReloadPlanKeepsPool | src/kiro/pool_manager.rs:118-153 | every planned scheduler holds only credentials of its own pool |
| PoolRegistry.FirstGroupsBuildAll | src/kiro/pool_manager.rs:125-141 | the loop gets past the first n pools iff every one of their schedulers can be built |
| PoolRegistry.FirstGroupsBuildStops | src/kiro/pool_manager.rs:133-140 | a single scheduler that cannot be built makes the whole loop fail |
| PoolRegistry.ReloadPlanUnique | src/kiro/pool_manager.rs:125-153 | when every scheduler builds, each planned scheduler's credential ids are pairwise distinct |
| PoolRegistry.PoolManager.RuntimesForStep | src/kiro/pool_manager.rs:143-151 | filing one more runtime under its id keeps the runtimes in step with the plan grown by that id |
| PoolRegistry.PoolManager.RuntimesForNarrow | src/kiro/pool_manager.rs:159 | the correspondence with the plan needs only the schedulers the runtimes hold |
| PoolRegistry.PoolManager.InstalledValid | src/kiro/pool_manager.rs:158-160 | runtimes installed after a plan with the default pool make a valid registry, held by their own schedulers |
| PoolRegistry.PoolManager.GroupCredentials | src/kiro/pool_manager.rs:118-122 | the grouping loop computes exactly `GroupByPool` of its input |
| PoolRegistry.PoolManager.BuildRuntime | src/kiro/pool_manager.rs:129-151 | fails exactly when the group's credential ids repeat, with `new`'s duplicate-id error; otherwise the runtime has the pool's configuration and resolved proxy and a fresh scheduler in the pool's mode holding exactly the entries built from the group, with fresh counters |
| PoolRegistry.PoolManager.ProgressStep | src/kiro/pool_manager.rs:125-153 | a runtime built for the j-th pool's group moves the loop on to j + 1: groups left, pools built so far and runtimes following the plan |
| PoolRegistry.PoolManager.RuntimeStep | src/kiro/pool_manager.rs:126-151 | one turn of the loop fails exactly when the j-th pool's scheduler cannot be built, with its error; otherwise it files a fresh runtime under the pool's id and moves the loop on |
| PoolRegistry.PoolManager.BuildRuntimes | src/kiro/pool_manager.rs:125-153 | succeeds iff every configured pool's scheduler can be built; on failure the error is that of the first pool whose scheduler cannot be built; on success one runtime per configured id, following the plan, each with a fresh scheduler of its own |
| PoolRegistry.PoolManager.InstallPools | src/kiro/pool_manager.rs:159 | the built runtimes replace the old ones |
| PoolRegistry.PoolManager.ReplacePools | src/kiro/pool_manager.rs:123-162 | succeeds iff every scheduler can be built; on failure it returns the first failing pool's error and keeps the old pools; on success the pools follow the plan, are valid, and hold fresh schedulers |
| PoolRegistry.PoolManager.Reload | src/kiro/pool_manager.rs:96-162 | load failures give their prefixed errors; otherwise it succeeds iff every configured pool (the default one ensured) gets its scheduler, and then each pool id holds its last configuration and exactly the entries built from its group of the sorted credentials; on any error the pools are unchanged |
| PoolRegistry.PoolManager.New | src/kiro/pool_manager.rs:72-93 | a fresh registry with the global proxy after a first reload, failing with that reload's error exactly when it fails |
| PoolRegistry.PoolManager.GetPool | src/kiro/pool_manager.rs:188-190 | finds the runtime iff the id is known |
| PoolRegistry.PoolManager.GetDefaultPool | src/kiro/pool_manager.rs:193-195 | a loaded manager always has the default pool |
| PoolRegistry.PoolManager.PoolCount | src/kiro/pool_manager.rs:297-299 | the number of pools |
| PoolRegistry.PoolManager.Runtimes | src/kiro/pool_manager.rs:237-264 | the runtimes in iteration order, covering every pool |
| PoolRegistry.PoolManager.GetPoolForApiKey | src/kiro/pool_manager.rs:205-232 | no binding routes to the default pool if enabled; `auto` routes automatically; another binding routes to that pool if it exists and is enabled; otherwise none |
| PoolRegistry.PoolManager.RoutedPoolIsEnabled | src/kiro/pool_manager.rs:205-264 | routing never returns a disabled pool |
| PoolRegistry.PoolManager.Snapshot | src/kiro/pool_manager.rs:267-289 | one snapshot per pool in iteration order, each the snapshot record of that pool's runtime |
| PoolRegistry.PoolManager.AutoRoutePool | src/kiro/pool_manager.rs:237-264 | an enabled pool with an available credential whose priority no other such pool beats; none iff no enabled pool has an available credential |
| PoolRegistry.PoolManager.CreatePool | src/kiro/pool_manager.rs:304-340 | an existing id is rejected with nothing changed; otherwise exactly that pool is added, with an empty fresh token manager, and the others are unchanged |
| PoolRegistry.PoolManager.UpdatePool | src/kiro/pool_manager.rs:343-396 | an unknown pool is not found; otherwise its configuration becomes the merged one, its token manager takes the new mode, and no other token manager changes |
| PoolRegistry.PoolManager.DeletePool | src/kiro/pool_manager.rs:399-418 | the default pool cannot be deleted; unknown pools are not found; otherwise exactly that pool is removed and a failed save is reported |
| PoolRegistry.PoolManager.SetPoolDisabled | src/kiro/pool_manager.rs:421-429 | an unknown pool is not found; otherwise only its enabled flag changes, and no token manager changes |
| PoolRegistry.PoolManager.AssignCredentialToPool | src/kiro/pool_manager.rs:446-482 | an unknown pool and an unknown credential are errors; otherwise the first stored credential with the id is moved to the pool and nothing else changes |
| ApiKeys.MaskKey | src/admin/api_keys.rs:71-89 | a long key shows its first characters followed by the mask; a short key shows only the mask |
| ApiKeys.Masked | src/admin/api_keys.rs:71-89 | the masked view keeps every field except the key, which is masked |
| ApiKeys.GeneratedKey | src/admin/api_keys.rs:341-357 | a generated key is `sk-` followed by the random characters |
| ApiKeys.MaxKeyId | src/admin/api_keys.rs:147-159 | the largest key id, or 0 for none |
| ApiKeys.FindEnabledKey | src/admin/api_keys.rs:191-208 | the first enabled key with that value, none iff there is none |
| ApiKeys.ApplyKeyUpdate | src/admin/api_keys.rs:292-322 | given fields replace stored ones; a pool id of null clears the binding, an absent one keeps it; id, key and creation time never change |
| ApiKeys.ApiKeyManager.New | src/admin/api_keys.rs:147-159 | the next id is one above the largest loaded id |
| ApiKeys.ApiKeyManager.ValidateAndGetPool | src/admin/api_keys.rs:202-208 | answers iff some enabled key has the value, and then gives that key's pool binding |
| ApiKeys.ApiKeyManager.ValidateAgreesWithLookup | src/admin/api_keys.rs:191-208 | `validate` accepts exactly the keys for which a pool lookup answers |
| ApiKeys.ApiKeyManager.List | src/admin/api_keys.rs:185-187 | every key, masked, in order |
| ApiKeys.ApiKeyManager.Count | src/admin/api_keys.rs:361-363 | the number of keys |
| ApiKeys.ApiKeyManager.EnabledCount | src/admin/api_keys.rs:367-369 | at most the total; zero iff no key is enabled |
| ApiKeys.ApiKeyManager.CreateWithFullKey | src/admin/api_keys.rs:252-289 | a duplicate name is rejected with nothing changed; otherwise one key is appended with the next id (above all existing ids), enabled, with the given or generated key |
| ApiKeys.ApiKeyManager.Create | src/admin/api_keys.rs:212-249 | a duplicate name is rejected with nothing changed; otherwise one enabled key with the next id, the name, the given or generated value, the description, the creation time and the pool binding is appended; the masked view is returned, or the save failure |
| ApiKeys.ApiKeyManager.Update | src/admin/api_keys.rs:292-322 | an unknown id is not found; otherwise only that key takes the update |
| ApiKeys.ApiKeyManager.Delete | src/admin/api_keys.rs:325-338 | an unknown id is not found; otherwise exactly that key is removed |
| Csrf.Unexpired | src/admin/csrf.rs:81-94 | keeps exactly the tokens whose expiry is after `now`, with their expiries |
| Csrf.UnexpiredIdempotent | src/admin/csrf.rs:81-94 | sweeping twice equals sweeping once |
| Csrf.SweepsInAWindow | src/admin/csrf.rs:97-102 | any 100 consecutive operations include a sweep |
| Csrf.CsrfManager.New | src/admin/csrf.rs:27-34 | starts with no tokens and a zero operation count |
| Csrf.CsrfManager.CleanupExpired | src/admin/csrf.rs:81-94 | the tokens become the unexpired ones |
| Csrf.CsrfManager.MaybeCleanup | src/admin/csrf.rs:97-102 | counts one operation and sweeps when it is due |
| Csrf.CsrfManager.GenerateToken | src/admin/csrf.rs:39-53 | after the possible sweep, the new token is stored with expiry `now + ttl` |
| Csrf.CsrfManager.ValidateToken | src/admin/csrf.rs:58-78 | accepts iff the token was stored and unexpired; the token is consumed either way |
| Csrf.CsrfManager.TokenCount | src/admin/csrf.rs:105-107 | the number of stored tokens |
| History.DefaultHistoryConfig | src/anthropic/history.rs:30-39 | the default history settings |
| History.ReplaceImagesInContent | src/anthropic/history.rs:226-249 | in array content each image block becomes the placeholder and everything else is kept in place; other content is unchanged |
| History.ApplyImagePlaceholder | src/anthropic/history.rs:212-223 | each message keeps its role and has its images replaced |
| History.PlaceholderRemovesImages | src/anthropic/history.rs:212-249 | afterwards no message contains an image, and applying it again changes nothing |
| History.ItemsTokensLowerBound | src/anthropic/history.rs:286-324 | a content list costs at least the fixed charges for its images and tool blocks |
| History.ItemsTokensFixedCharges | src/anthropic/history.rs:286-324 | with a tokenizer that counts nothing, the cost is exactly those fixed charges |
| History.MessageTokensOfOtherContent | src/anthropic/history.rs:286-324 | content that is neither text nor an array costs nothing |
| History.MessagesTokensAppend | src/anthropic/history.rs:252-283 | the estimate is additive over messages |
| History.EstimateMessageTokens | src/anthropic/history.rs:286-324 | the accumulating loop computes the message estimate |
| History.EstimateTotalTokens | src/anthropic/history.rs:252-283 | the loops compute the system, message and tool estimate |
| History.Truncation | src/anthropic/history.rs:154-187 | at most `keep` messages are left alone; otherwise the notice followed by the last `keep` messages |
| History.TruncationIdempotent | src/anthropic/history.rs:154-187 | truncating twice equals once |
| History.TruncationKeepsRecent | src/anthropic/history.rs:154-187 | the most recent messages survive in order, and at most `keep + 1` remain |
| History.ApplyTruncation | src/anthropic/history.rs:154-187 | the push/extend loop produces the truncation and keeps the system prompt |
| History.ApplyAiSummary | src/anthropic/history.rs:194-207 | the summary path truncates to the last 20 messages |
| History.ManageHistory | src/anthropic/history.rs:68-149 | disabled leaves everything as is; otherwise images are replaced if configured; under the threshold nothing more happens; above it exactly one of truncation or summary happens, as configured, and the token counts before and after are those of the messages |
| Service.AsI32 | src/anthropic/service.rs:128 | the result is a 32-bit signed value, equal to the count when the count fits |
| Service.MetadataSession | src/anthropic/service.rs:73-95 | found iff the user id contains `session_`; the result is a prefix of the text from there and contains no `__` |
| Service.ExtractSessionId | src/anthropic/service.rs:73-119 | the metadata session wins, then a non-empty header, then the system-prompt digest; none iff all three are missing |
| Service.SystemFallback | src/anthropic/service.rs:96-119 | when the metadata gives no `session_` id and the header no non-empty readable one, a non-empty system prompt yields an id starting with `sys_` |
| Service.IsThinkingEnabled | src/anthropic/service.rs:132-138 | thinking is off without a thinking block, and otherwise on exactly when its type is `enabled` |
| Service.MetadataSessionPrefix | src/anthropic/service.rs:73-95 | the extracted session id starts with `session_` (see Left out) |
| Service.MetadataSessionDoubleUnderscore | src/anthropic/service.rs:73-95 | for `session__x` the extracted id is `session` |
| Service.HistoryConfigOf | src/anthropic/service.rs:177-224 | the history settings are taken from the configuration, with prompt caching off |
| Service.ApplyHistoryManagement | src/anthropic/service.rs:177-224 | only the messages change, to the managed ones; disabled management changes nothing |
| Service.ValidateAndPrepareRequest | src/anthropic/service.rs:234-289 | no provider is an error; a web-search request is routed with its input estimate; otherwise the managed request is converted, conversion errors pass through, and success yields the prepared body with the session id |
| Config.DefaultConfig | src/model/config.rs:128-245 | the default values of every setting |
| Config.FiringMessagesEmptyIff | src/model/config.rs:277-363 | no error is reported iff no rule fires |
| Config.FiringRuleReported | src/model/config.rs:277-363 | every firing rule's message is reported |
| Config.ValidationCompleteness | src/model/config.rs:277-363 | the configuration is valid iff none of its 14 rules fires, and each firing rule is reported |
| Config.RejectedSettings | src/model/config.rs:281-346 | a blank host or region, a zero port, cache size, cache TTL or health interval, a bad proxy scheme or a bad auth type is reported |
| Config.GatedChecks | src/model/config.rs:324-356 | with rate limiting off the limits are not checked; with history management off its settings are not checked |
| Config.DefaultConfigValid | src/model/config.rs:214-363 | the default configuration validates |
| Config.CheckServer | src/model/config.rs:281-307 | the host, port, region and proxy checks push exactly the firing messages in order |
| Config.CheckCache | src/model/config.rs:310-321 | the cache and health-interval checks likewise |
| Config.CheckRateLimits | src/model/config.rs:324-336 | the rate-limit checks likewise |
| Config.CheckAuthType | src/model/config.rs:341-346 | the auth-type check likewise |
| Config.CheckHistory | src/model/config.rs:349-356 | the history checks likewise |
| Config.Validate | src/model/config.rs:358-361 | Ok iff no rule fires; otherwise all firing messages |
| ConfigHandlers.GetConfig | src/admin/config_handlers.rs:19-39 | the view copies the settings, masks a present proxy password, and reports only whether the keys are set |
| ConfigHandlers.GetConfigHidesPassword | src/admin/config_handlers.rs:33 | the view does not depend on the proxy password's value |
| ConfigHandlers.Overwrite | src/admin/config_handlers.rs:43-103 | a given value replaces the stored one |
| ConfigHandlers.ClearableField | src/admin/config_handlers.rs:43-103 | an empty string clears the field, another value sets it, absence keeps it |
| ConfigHandlers.SecretField | src/admin/config_handlers.rs:43-103 | the clear marker clears a secret; an empty string or absence keeps it; another value sets it |
| ConfigHandlers.MergedConfig | src/admin/config_handlers.rs:43-103 | each editable field follows its rule, and nothing else changes |
| ConfigHandlers.MergeLaws | src/admin/config_handlers.rs:43-103 | an empty update is the identity; applying the same update twice equals once |
| ConfigHandlers.UpdateDoesNotValidate | src/admin/config_handlers.rs:43-103 | an update can store a configuration that fails validation (port 0) |
| ConfigHandlers.AdminConfigState.UpdateConfig | src/admin/config_handlers.rs:43-103 | the state becomes the merged configuration; a failed save is reported with its message |
| ConfigHandlers.AssignServerFields | src/admin/config_handlers.rs:43-103 | the in-place assignments of the server fields |
| ConfigHandlers.AssignProxyFields | src/admin/config_handlers.rs:43-103 | the in-place assignments of the proxy and key fields |
| Health.DeriveStatus | src/health.rs:152-158 | unhealthy iff nothing is available; degraded iff under half is available; healthy otherwise |
| Health.StatusCode | src/health.rs:169-173 | 503 iff unhealthy, otherwise 200 |
| Health.CredentialCounts | src/health.rs:111-130 | without a token manager all counts are 0; otherwise the snapshot's total and available, and the disabled and failing entries |
| Health.HealthCheck | src/health.rs:107-176 | the response carries those counts, the derived status and its code, and one summary per pool when pools exist |
| Health.NoTokenManagerIsUnhealthy | src/health.rs:123-173 | without a token manager the service is unhealthy with 503 |
| Health.CountsAddUp | src/health.rs:111-122 | available plus disabled is the total, and failing entries are at most the total |
| Handlers.StopPositions | src/anthropic/handlers.rs:370-393 | the final tool-use fragments, in increasing order, and all of them |
| Handlers.ParsedInput | src/anthropic/handlers.rs:377-381 | an unparsable tool input becomes an empty object |
| Handlers.ResponseTextAppend | src/anthropic/handlers.rs:367-369 | the text is the concatenation over the events |
| Handlers.ToolBufferAppend | src/anthropic/handlers.rs:375 | a tool's input buffer is the concatenation of its fragments |
| Handlers.AnyToolUseIff | src/anthropic/handlers.rs:370-393 | a tool was used iff some event is a tool-use fragment |
| Handlers.LengthExceededIff | src/anthropic/handlers.rs:406-410 | the length was exceeded iff some exception event says so |
| Handlers.StopReasonCases | src/anthropic/handlers.rs:406-424 | `max_tokens` iff the length was exceeded; otherwise `tool_use` iff a tool was used; `end_turn` iff neither |
| Handlers.LastContextTokensIsLast | src/anthropic/handlers.rs:395-404 | the input count comes from the last context-usage event, none iff there was none |
| Handlers.ToolBlocksPerStop | src/anthropic/handlers.rs:370-393 | one tool-use block per final fragment; each carries the input accumulated for its id up to that fragment |
| Handlers.CollectEvent | src/anthropic/handlers.rs:362-411 | one turn of the event loop keeps the collected text, tool blocks, buffers, flags and context figure equal to the folds over the events seen so far |
| Handlers.BuildNonStreamResponse | src/anthropic/handlers.rs:347-456 | the content is a text block when text arrived, then the tool blocks; the stop reason and input tokens follow the events; the output tokens are the estimate of that content |
| Handlers.CountTokensResult | src/anthropic/handlers.rs:198-217 | the reported count is a positive 32-bit value; it equals the count when that fits, and 0 becomes 1 |
| Handlers.ConversionErrorResponse | src/anthropic/handlers.rs:241-251 | a 400 invalid-request error whose message names the unsupported model or the empty message list |
| Handlers.ConversionErrorMessagesDistinct | src/anthropic/handlers.rs:241-251 | different conversion errors give different messages |
| Handlers.ResolveKiroProvider | src/anthropic/handlers.rs:169-193 | a routed pool's token manager when routing answers; otherwise the default provider |
| Handlers.ResolvedProviderIsEnabledPool | src/anthropic/handlers.rs:169-193 | a non-default provider is the token manager of an enabled pool |
| CliCredentials.MaxId | cli/commands/credentials.rs:91-97 | bounds every present id, and is 0 or one of them |
| CliCredentials.Add | cli/commands/credentials.rs:71-136 | appends one credential with an id one above the maximum, so it is new, with all statistics zero |
| CliCredentials.WithoutContents | cli/commands/credentials.rs:151-156 | deleting removes every credential with the id and keeps the rest |
| CliCredentials.WithoutShortens | cli/commands/credentials.rs:151-156 | the list shrinks iff some credential had the id |
| CliCredentials.Delete | cli/commands/credentials.rs:139-163 | not found iff no credential has the id; otherwise exactly those credentials are removed |
| CliCredentials.MergeShape | cli/commands/credentials.rs:200-219 | the imported records are appended in order, each with an id; an explicit id no earlier record holds is kept, while a missing or already taken id is replaced by the next number, counting upwards from the starting id |
| CliCredentials.Import | cli/commands/credentials.rs:166-227 | the import loop produces exactly that merge, and every record counts as added |
| CliCredentials.ImportFacts | cli/commands/credentials.rs:166-227 | existing records are untouched, imported ones differ only in id, assigned ids are new to the existing list, and an empty import changes nothing |
| CliCredentials.ImportCanDuplicateIds | cli/commands/credentials.rs:200-219 | an explicit imported id can equal a later assigned id: existing id 1 with imported ids 2 and none gives two records with id 2 |

## Left out

- Network: the social and IdC token refresh calls and `get_usage_limits`. The refresh is an oracle returning a response or a failure message.
- Persistence and file I/O: pools, API keys, configuration and credential files. Each save is a `persisted` or `saveFailure` parameter, and the in-memory change happens first, as in the source.
- The CLI's file reads and writes are left out. `CliCredentials.Add`, `Delete` and `Import` work on the already-loaded list, which the source sorts by priority on load.
- JSON/YAML (de)serialisation:
  - only the resulting `Option<Option<_>>` semantics of nullable fields are modelled;
  - JSON parsing of tool input is a parameter.
- Concurrency: locks, atomics, the double-checked refresh lock and the check-then-insert race in `create_pool`. Everything is sequential.
- moka cache: TTL, capacity and eviction. The session map is a finite map, and `EvictSession` may drop any entry at any time.
- Clock, RFC 3339 parsing, SHA-256 and randomness:
  - time is the parameter `now`, and a timestamp is either an instant or malformed;
  - the digest and all random values are parameters.
- Floating point: the context-usage percentage (src/anthropic/handlers.rs:396-399), the reduction log (src/anthropic/history.rs:137) and balance fields.
- A context-usage event carries its input-token count already computed. The percentage-to-tokens conversion (src/anthropic/handlers.rs:396-398) is floating point and is left out.
- Integer widths: `u64`/`u32`/`usize` ids, counters and token sums are unbounded. Wrap-around is modelled only where the source casts to `i32`.
- `TokenRefresh.ValidateRefreshToken` and `ApiKeys.MaskKey` count characters, not UTF-8 bytes.
- The tokenizer, the request converter, web-search detection and `estimate_output_tokens` are abstract parameters.
- SSE streaming, the axum handlers, routers, middleware, admin DTOs and `main.rs` wiring are left out.
- The health background task, CLI printing, `list`/`export` and all logging are left out.
- Decoding of upstream event-stream frames:
  - the response builder starts from the decoded events;
  - the response envelope's constant fields (`type`, `role`, `stop_sequence`) are left out.
- Three source call sites disagree with the definitions they call. The model follows the definitions:
  - argument counts to `MultiTokenManager::new`;
  - argument counts to `validate_and_prepare_request`;
  - the `api_key` configuration field, which is used but not declared and is added here.
- Service.MetadataSessionPrefix: proved only when the character after `session_` is not `_`. The source returns `session` for `session__x` (see `Service.MetadataSessionDoubleUnderscore`), so the promise that the id starts with `session_` does not hold in general.
- CliCredentials.Import: ids are not proved unique. The source can create duplicate ids (see `CliCredentials.ImportCanDuplicateIds`), and nothing in it claims otherwise.
- `reload`'s orphan check (src/kiro/pool_manager.rs:155-165) only logs a warning. In the model, credentials whose pool is not configured belong to no scheduler.
- `reload` also hands `MultiTokenManager::new` the global configuration, the credentials path and the multiple-format flag. These matter only for saving and are left out.
- PoolRegistry.PoolManager.RuntimeMatches: it states a scheduler's entries and counters but not that scheduler's own `Valid()` or pool membership. For the installed pools these follow from the plan, through `ReloadPlanUnique` and `ReloadPlanKeepsPool`.
- PoolRegistry.PoolManager.Empty: it does not establish `Valid()`, because it has no default pool yet. `PoolManager.New` runs the first reload and promises `Valid()` on success.
