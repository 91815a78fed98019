# Parsec key store, key lifecycle and request path

Parsec maps triples of application, provider and key name to backend key identifiers. It keeps that map in
memory and on disk and shares it between threads, providers and restarts. This project models the code that
does so and proves that the map, the disk and each backend's keys stay consistent.

- **Key info store.** `Base64` is the file-name code of RFC 4648, section 5 with the padding of section 4.
  `FileNames` maps triples to paths and back. `OnDiskManager` is the in-memory map over the directory tree,
  with a fault for each file operation. `Reload` is the start-up reload, in any listing order.
  `KeyInfoManager` has the manager and the client as objects, and `Isolation` compares runs of many clients.
- **Key lifecycle.** `Lifecycle` is one step system for the Mbed Crypto, Trusted Service and PKCS 11
  providers. A step is a call under a lock, an atomic operation or a backend call of one thread, a crash, a
  failed start-up or a restart. `LifecycleIds`, `LifecycleKeys`, `LifecycleOverlap`, `LifecycleAccount`,
  `Pkcs11Token` and `CreationAlone` prove its properties, and `IdAllocator` those of the id counter by itself.
  `Providers` has the operations as methods of a provider object; each is a run of the step system. `StartUp`
  has the reconciliation loops. `StoreRefinement` shows that each call on the byte-level store is a step of the
  system, and `ServiceRuns` that each run over the bytes is a run of it.
- **CryptoAuthLib slots.** `KeySlots` has the compatibility checks and `KeySlotStorage` the slot table.
  `SlotLifecycle` is the step system of its threads, `SlotOwnership` the account of every busy slot,
  `SlotOverlap` a run in which it fails, and `CalibProvider` the provider object.
- **Core provider and requests.** `CoreProvider` lists and deletes across providers, `Requests` is the way of
  a request to a provider call, and `ServiceBuilder` assembles the service.

A backend is a set of live keys whose calls may fail. The serialisation of key information is any codec that
reads back what it wrote; where a write may stop early, no proper prefix of a serialisation can be read.
Clocks, randomness, the network and the device are parameters: the ids that PKCS 11 draws are given, and so
is which calls fail.

## Where the code and its promises differ

- The comment on file names allows names of 188 bytes. The code allows 189, as `Base64.NameLimit` proves.
- A mapping of an application with the empty name is stored and then lost by the next reload:
  `Reload.EmptyApplicationIsLost`. `Reload.ReloadIsExact` says that this is the only loss. A key with the
  empty name is always refused.
- A failed insert can leave memory and disk at odds. `OnDiskManager.AgreementAfterFailedInsert` says exactly
  when, and `OnDiskManager.AgreementIsExact` says it of whole runs.
- "Every mapped id names a live key" fails when two creations of one triple overlap.
  `LifecycleOverlap.OverwriteIsTheFlaw` gives the exact condition for every provider and
  `LifecycleOverlap.OverlapBreaksTheMap` a run of each.
- "Every live key is mapped or in use by an operation" fails in the same runs, when a backend call of a rollback
  or a destroy fails, and when a destroy overlaps a destroy and a creation of its triple.
  `LifecycleAccount.OrphaningStepsAreTheFlaw` gives the exact condition for every step and
  `LifecycleAccount.RecreatedKeyIsOrphaned` a run in which no call fails.
- A PKCS 11 destroy that returns Ok leaves nothing of the key exactly when the token had at most two objects of
  its id: `Providers.Provider.DestroyObjects`.
- "Every busy slot has an owner" fails in the same way for CryptoAuthLib. `SlotOwnership.ClashesAreTheFlaw`
  gives the exact condition and `SlotOverlap.OverlapBreaksTheLedger` a run.
- An import of a public key whose length is not 65 bytes keeps its slot busy until the next restart:
  `SlotOwnership.OnlyRefusedImportsLeak`.
- The slot checks of CryptoAuthLib accept HMAC keys, for which the device then has no type, so none is ever
  created: `KeySlots.DeviceTypeMatches`.
- The start-up of CryptoAuthLib sets out to validate the stored mappings. It removes all of them, because it
  asks of each listed triple that it should not exist: `CalibProvider.Start`.

## Model

| member | source | states |
|---|---|---|
| Base64.TestVectors | src/key_info_managers/on_disk_manager/mod.rs:44-54 | the code is that of RFC 4648: the test vectors of its section 10, and one for the two characters of the URL-safe alphabet |
| Base64.DigitsAreSpelled | src/key_info_managers/on_disk_manager/mod.rs:44-54 | each digit is spelled by its character of the URL-safe alphabet, written out, and the padding by the equals sign |
| Base64.DecodeInvertsEncode | src/key_info_managers/on_disk_manager/mod.rs:44-69 | decoding gives back every byte string that was encoded |
| Base64.EncodeInvertsDecode | src/key_info_managers/on_disk_manager/mod.rs:57-69 | a text that decodes under RFC 4648 is the one encoding of its bytes; a decoder that also takes unpadded texts is not covered |
| Base64.EncodedShape | src/key_info_managers/on_disk_manager/mod.rs:44-54 | no file name contains a separator or a dot |
| Base64.EncodedLength | src/key_info_managers/on_disk_manager/mod.rs:9-13 | four characters for each started group of three bytes |
| Base64.NameLimit | src/key_info_managers/on_disk_manager/mod.rs:9-13 | a name fits in 255 characters exactly when it has at most 189 bytes |
| FileNames.ProviderOfInvertsProviderDir | src/key_info_managers/on_disk_manager/mod.rs:108-127 | the provider id read from a directory name is the one it was made from |
| FileNames.TripleOfInvertsPathOf | src/key_info_managers/on_disk_manager/mod.rs:73-86 | the path of a triple without empty names has three components and decodes to the triple |
| FileNames.PathOfInjective | src/key_info_managers/on_disk_manager/mod.rs:44-54 | no two triples, even with empty names, share a path |
| FileNames.ComponentsAreSafe | src/key_info_managers/on_disk_manager/mod.rs:44-54 | no component of a path contains a separator or is made of dots |
| FileNames.FilesAreNotDirectories | src/key_info_managers/on_disk_manager/mod.rs:257-267 | the file of a triple with a key name is never a directory on the way to another file |
| OnDiskManager.StepFrame | src/key_info_managers/on_disk_manager/mod.rs:257-302 | a call, failed or not, leaves memory and file of every other triple as they were |
| OnDiskManager.FailureKeepsMemory | src/key_info_managers/on_disk_manager/mod.rs:324-344 | a failed insert or remove never changes memory |
| OnDiskManager.SuccessRestoresAgreement | src/key_info_managers/on_disk_manager/mod.rs:324-344 | a successful call makes memory and disk agree on its triple whatever they said before, and answers with the old mapping |
| OnDiskManager.RemoveIsExact | src/key_info_managers/on_disk_manager/mod.rs:290-344 | a remove succeeds exactly when its path is no directory and its file, if any, can be removed; then mapping and file are gone, and otherwise nothing has changed |
| OnDiskManager.InsertSucceedsIff | src/key_info_managers/on_disk_manager/mod.rs:257-287 | on every tree that saving makes, an insert succeeds exactly when there is a key name and no file operation it gets to fails |
| OnDiskManager.RemoveSucceedsIff | src/key_info_managers/on_disk_manager/mod.rs:290-302 | on such a tree a remove succeeds exactly when there is no file or its removal works; with the empty key name, when its directory is not there |
| OnDiskManager.AgreementAfterFailedInsert | src/key_info_managers/on_disk_manager/mod.rs:257-287 | after a failed insert memory and disk agree on its triple if and only if it failed before touching the file and they agreed, or the create failed and the triple was unmapped, or the write left exactly the bytes of the mapping in memory |
| OnDiskManager.AgreementIsExact | src/key_info_managers/on_disk_manager/mod.rs:257-344 | after every run of calls with any file operation failing, memory and disk agree on a triple if and only if no call has damaged its file since the last one that put it right |
| OnDiskManager.MemoryAndDiskAgree | src/key_info_managers/on_disk_manager/mod.rs:257-344 | so they agree on every triple except those whose latest insert failed |
| OnDiskManager.FailedInsertMayLoseTheFile | src/key_info_managers/on_disk_manager/mod.rs:271-285 | the exception is needed: a failed insert can leave a mapped triple without its file |
| Reload.LoadFile | src/key_info_managers/on_disk_manager/mod.rs:198-239 | a file gives its mapping exactly when its contents and its path can be decoded |
| Reload.LoadKeys | src/key_info_managers/on_disk_manager/mod.rs:197-240 | the files of one provider directory are loaded exactly when each can be read and decoded, and then the map holds them too |
| Reload.LoadProviders | src/key_info_managers/on_disk_manager/mod.rs:196-241 | the same for the provider directories of one application directory |
| Reload.LoadMappings | src/key_info_managers/on_disk_manager/mod.rs:184-252 | for any listing order, the reload succeeds exactly when all directories and files can be read and decoded, and then holds one entry for each file two directories deep and nothing else |
| Reload.ReloadInvertsSaving | src/key_info_managers/on_disk_manager/mod.rs:184-252 | after any run whose last calls succeeded, the reload rebuilds the map in memory, less the mappings of the empty application name |
| Reload.ReloadIsExact | src/key_info_managers/on_disk_manager/mod.rs:184-252 | nothing is lost if and only if no mapped application name is empty |
| Reload.SavedRunIsLoadable | src/key_info_managers/on_disk_manager/mod.rs:184-252 | what such a run leaves on disk, empty directories included, can be loaded |
| Reload.CallSucceedsIff | src/key_info_managers/on_disk_manager/mod.rs:257-344 | after every run of calls, with any file operation failing, exactly when the next insert or remove succeeds |
| Reload.EmptyApplicationIsLost | src/key_info_managers/on_disk_manager/mod.rs:257-267 | a mapping of the empty application name is stored and not found by the reload |
| Reload.EmptyKeyIsRefused | src/key_info_managers/on_disk_manager/mod.rs:257-285 | an insert with the empty key name always fails |
| KeyInfoManager.OnDiskKeyInfoManager.New | src/key_info_managers/on_disk_manager/mod.rs:184-252 | a manager exists exactly when the directory can be loaded, and holds what the files say |
| KeyInfoManager.OnDiskKeyInfoManager.SaveMapping | src/key_info_managers/on_disk_manager/mod.rs:257-287 | the file operations in order, with what each failure leaves on disk |
| KeyInfoManager.OnDiskKeyInfoManager.DeleteMapping | src/key_info_managers/on_disk_manager/mod.rs:290-302 | succeeds exactly when there is no directory in the place of the file and the removal of a file that is there works; then that file is gone, and nothing else ever changes |
| KeyInfoManager.OnDiskKeyInfoManager.GetAll | src/key_info_managers/on_disk_manager/mod.rs:316-322 | the triples of a provider, each once |
| KeyInfoManager.OnDiskKeyInfoManager.InsertMapping | src/key_info_managers/on_disk_manager/mod.rs:324-334 | the disk first and memory only if that succeeded; the answer is the overwritten mapping |
| KeyInfoManager.OnDiskKeyInfoManager.RemoveMapping | src/key_info_managers/on_disk_manager/mod.rs:336-344 | the disk first and memory only if that succeeded, and exactly when it does; the answer is the removed mapping |
| KeyInfoManager.KeyInfoManagerClient.KeyIdOf | src/key_info_managers/mod.rs:162-178 | the decoded id, or why there is none |
| KeyInfoManager.KeyInfoManagerClient.KeyAttributesOf | src/key_info_managers/mod.rs:186-200 | the stored attributes, or that there are none |
| KeyInfoManager.KeyInfoManagerClient.Insert | src/key_info_managers/mod.rs:242-262 | Ok exactly when the triple was unmapped and now has the mapping; an existing mapping is overwritten although the answer is then that it already exists; only a failed file operation leaves memory as it was |
| KeyInfoManager.KeyInfoManagerClient.Remove | src/key_info_managers/mod.rs:221-235 | the removal, and exactly when each of its three answers is given |
| KeyInfoManager.KeyInfoManagerClient.DoesNotExist | src/key_info_managers/mod.rs:339-353 | an error exactly when the triple is mapped |
| KeyInfoManager.KeyInfoManagerClient.ListKeysOf | src/key_info_managers/mod.rs:294-331 | each mapping of the application in the provider once, and nothing else |
| KeyInfoManager.KeyInfoManagerClient.ListClients | src/key_info_managers/mod.rs:269-288 | each application with a mapping in the provider once, and nothing else |
| Isolation.StoreIsNonInterfering | src/key_info_managers/mod.rs:148-353 | in any sequence of calls by many applications through many providers, faults included, one pair's answers equal those of the run with all other calls deleted |
| Isolation.Serve | src/key_info_managers/mod.rs:162-353 | the requests of these sequences are the calls of the client object: same store and same answer |
| IdAllocator.CreateKeyIdIsSafe | src/providers/mbed_crypto/key_management.rs:17-32 | in every interleaving of n threads, with increment and store as separate steps, the granted ids are the successors of the start value in order and at most the maximum; after a refusal every call is refused; the counter stays at most n above the maximum |
| IdAllocator.FetchAddStaysBounded | src/providers/trusted_service/key_management.rs:16-28 | the increment cannot wrap while the maximum plus n fits in 32 bits |
| LifecycleIds.StepKeepsInv | src/providers/mbed_crypto/key_management.rs:35-211 | every step of every thread, a crash, a failed start-up and a restart keep ids owned by one triple each |
| LifecycleIds.MapIsInjective | src/key_info_managers/mod.rs:162-262 | in every run, restarts included, no two triples share a key id, in memory or in a file that the next start reloads |
| LifecycleIds.IssuedIdsAreNeverReissued | src/providers/pkcs11/key_metadata.rs:6-14 | in every interleaving between two starts an issued id is never issued again, and every thread and mapping that has it has it for the triple it was issued for, even if that was destroyed and made anew meanwhile |
| LifecycleKeys.MappedIdsAreLive | src/providers/mbed_crypto/key_management.rs:35-211 | Mbed Crypto and PKCS 11: in every interleaving with any call failing and any crashes and restarts, every mapped id names a live key, provided no two creations of one triple overlap |
| LifecycleKeys.RunKeepsMappedLive | src/providers/mod.rs:105-172 | a run in which no insert overwrites a mapping keeps every mapped id live |
| LifecycleKeys.RestartMakesMappedLive | src/providers/pkcs11/mod.rs:96-174 | a successful restart that asks the backend makes every mapped id live, whatever came before |
| LifecycleKeys.TrustedServicePreservesLive | src/providers/trusted_service/key_management.rs:31-139 | Trusted Service: the same is kept between two starts once it holds |
| LifecycleKeys.TrustedServiceRestart | src/providers/trusted_service/mod.rs:58-100 | its restart asks nobody, so all mapped ids are live if and only if those of the reloaded files are |
| LifecycleKeys.NonOverlapMeansNoOverwrite | src/providers/mod.rs:105-113 | without overlap of creations no insert finds its triple mapped |
| LifecycleOverlap.OverwriteIsTheFlaw | src/providers/mbed_crypto/key_management.rs:55-63 | every provider, from every reachable state with all mapped ids live: storing a mapping, with the rollback it triggers run to its end, keeps them live if and only if the triple had no mapping or the backend has another object of the new id |
| LifecycleOverlap.OverwriteKillsPsaKeys | src/providers/trusted_service/key_management.rs:43-55 | Mbed Crypto and Trusted Service: if and only if the triple had no mapping, since no id has another object |
| LifecycleOverlap.OverwriteKillsTokenKeys | src/providers/pkcs11/key_management.rs:149-166 | PKCS 11: the same in every run from a clean token |
| LifecycleOverlap.OverlapBreaksTheMap | src/providers/pkcs11/key_management.rs:107-166 | for each provider a run of two overlapping creations that ends, both threads idle, in a dead mapping |
| LifecycleAccount.OrphaningStepsAreTheFlaw | src/providers/mbed_crypto/key_management.rs:35-211 | from every state whose objects all belong to a mapping or an operation under way, a step keeps it so if and only if it neither takes the last claim from a mapping nor lets go of an object that nothing else claims |
| LifecycleAccount.NothingIsOrphaned | src/providers/mod.rs:105-172 | from a state at rest, in every run in which no rollback or destroy call fails and no operations on one triple overlap, no object is orphaned |
| LifecycleAccount.LiveIsMapped | src/providers/mod.rs:105-172 | whenever such a run is at rest again, the ids of the live keys are exactly the ids of the map |
| LifecycleAccount.RecreatedKeyIsOrphaned | src/providers/mbed_crypto/key_management.rs:183-196 | the hypothesis is needed: a run of Mbed Crypto without a failing call in which a destroy orphans the key that was made anew |
| Pkcs11Token.RunKeepsToken | src/providers/pkcs11/key_management.rs:149-166 | in every run from a clean token each id has at most one public and one private object |
| Pkcs11Token.DestroyLeavesNothing | src/providers/pkcs11/key_management.rs:420-453 | in every such run, overlapping operations included, a destroy that returns Ok leaves no object with its id |
| Pkcs11Token.UnmappedObjectSurvivesDestroy | src/providers/pkcs11/key_management.rs:420-453 | the clean token is needed: with an unmapped object a destroy can return Ok and leave it |
| CreationAlone.CreationIsAllOrNothing | src/providers/mod.rs:105-113 | a creation run alone from any reachable state, whichever calls fail, either maps its triple to a live key or leaves the map as it was, and the backend too unless a rollback call failed |
| Providers.Provider.CheckAbsent | src/providers/mbed_crypto/key_management.rs:44 | the existence check is a step of the system and says whether the triple is unmapped |
| Providers.Provider.IncrementCounter | src/providers/mbed_crypto/key_management.rs:17-20 | the increment is a step of the system; the next id below the maximum, and a refusal from there on |
| Providers.Provider.ResetCounter | src/providers/mbed_crypto/key_management.rs:20-29 | after a refusal the maximum is stored back, as a step of its own |
| Providers.Provider.DrawKeyId | src/providers/pkcs11/key_metadata.rs:6-14 | the first drawn id that is not in use, recorded as in use |
| Providers.Provider.CreateKeyId | src/providers/mbed_crypto/key_management.rs:17-32 | the next counter value while it is below the maximum, or the first unused draw if there is a session, as a run of the system; the only refusals |
| Providers.Provider.MakeOne | src/providers/pkcs11/key_management.rs:224-226 | a PSA key or an imported public object is one new object of the id, as a step of the system |
| Providers.Provider.MakePair | src/providers/pkcs11/key_management.rs:149-150 | a generated key pair is a public and a private object of the id, as a step of the system |
| Providers.Provider.MakeKey | src/providers/mbed_crypto/key_management.rs:53-70 | succeeds exactly when the backend call works and, for a PSA key, the id has no key; then the backend has gained one or two objects of the id under new handles, and otherwise nothing changes |
| Providers.Provider.StoreKey | src/key_info_managers/mod.rs:242-262 | the insert is a step of the system; it fails when it overwrites, and memory has the new id all the same |
| Providers.Provider.UndoKey | src/providers/pkcs11/key_management.rs:156-163 | the rollback is a run that tries each new object and takes away exactly those whose own call works |
| Providers.Provider.StoreOrUndo | src/providers/pkcs11/key_management.rs:152-171 | the insert and the rollback are a run of the system: the answer, the map, the file and the objects left, for every fault |
| Providers.Provider.MakeAndStore | src/providers/pkcs11/key_management.rs:149-171 | the backend key, the mapping and the rollback are a run of the system that is all-or-nothing, with the answer for every fault |
| Providers.Provider.CreateKey | src/providers/mbed_crypto/key_management.rs:35-119 | generate and import are a run of the system. Ok exactly when the triple is unmapped, an id is left, a PSA backend has no key of it, and no call fails; then the triple maps, in memory and on disk, to the next counter value or first unused draw, and the backend has gained exactly the objects of that key. An error leaves the map as it was and, if the rollback works, the backend |
| Providers.Provider.FetchId | src/providers/mbed_crypto/key_management.rs:183 | the id of the triple, if it is mapped, as a step of the system |
| Providers.Provider.RemoveKey | src/providers/mbed_crypto/key_management.rs:184 | the mapping goes from memory and disk, or nothing changes, as a step of the system |
| Providers.Provider.DestroyPsaKey | src/providers/mbed_crypto/key_management.rs:186-210 | the backend loses the key of the id or keeps it, as a step of the system |
| Providers.Provider.FindKey | src/providers/pkcs11/key_management.rs:24-48 | an object of the id if there is any, as a step of the system |
| Providers.Provider.DestroyFound | src/providers/pkcs11/key_management.rs:433-436 | the found object goes or stays, as a step of the system |
| Providers.Provider.DestroyObjects | src/providers/pkcs11/key_management.rs:431-450 | one object must be found and a second may be; exactly when this is Ok, that other ids keep their objects, and that after Ok nothing of the id is left if and only if it had at most two objects |
| Providers.Provider.DestroySecond | src/providers/pkcs11/key_management.rs:438-450 | the second object need not exist, and Ok means that it is gone |
| Providers.Provider.DestroyInBackend | src/providers/mbed_crypto/key_management.rs:186-210 | the backend half of a destroy: exactly when it is Ok and what is left, for a PSA key and for a token key |
| Providers.Provider.DestroyKeyOf | src/providers/mbed_crypto/key_management.rs:175-211 | destroy is a run of the system: the mapping goes first, from memory and disk, whatever the backend does. Ok exactly when the triple is mapped, its removal works and the backend destroys the key; a PSA key is gone exactly then, a token key if and only if it had at most two objects, and other keys stay |
| Providers.PairsAreAtMostTwo | src/providers/pkcs11/key_management.rs:149-166 | one public and one private object for each id is what two destroy calls need |
| StartUp.RemoveAll | src/providers/mbed_crypto/mod.rs:131-139 | the removal loop succeeds exactly when no path is a directory and each file that is there can be removed, and touches no other file |
| StartUp.SortPsaMappings | src/providers/mbed_crypto/mod.rs:93-126 | the loop over the mappings sorts them into those that stay, with their greatest id, and those to be removed, and stops only at one the backend fails to answer for |
| StartUp.StartPsaProvider | src/providers/mbed_crypto/mod.rs:81-144 | start-up keeps exactly the mappings whose id decodes and whose key exists and all of other providers, stops exactly when the backend or a removal fails, and sets the counter to the greatest kept id |
| StartUp.SortPkcs11Mappings | src/providers/pkcs11/mod.rs:101-157 | the same, with the ids of those that stay |
| StartUp.StartPkcs11Provider | src/providers/pkcs11/mod.rs:96-174 | the same, with the ids in use being those of the kept mappings |
| StartUp.KeptIdsAreNotReissued | src/providers/mbed_crypto/mod.rs:91-141 | no interleaving of threads after start-up is granted the id of a kept mapping |
| StoreRefinement.InsertSimulates | src/key_info_managers/on_disk_manager/mod.rs:324-334 | a successful insert of the byte-level store is the store step of the system, and answers that there was a mapping exactly when that step goes on to the rollback |
| StoreRefinement.FailedInsertSimulates | src/key_info_managers/on_disk_manager/mod.rs:257-287 | a failed one is the failing store step with what it left of the file: as it was, missing, torn or complete |
| StoreRefinement.RemoveSimulates | src/key_info_managers/on_disk_manager/mod.rs:336-344 | a successful remove is the removal step, and a failed one changes nothing and ends the destroy |
| StoreRefinement.OtherProvidersDoNotStep | src/key_info_managers/mod.rs:383-388 | a call through another provider's client is no step of this provider |
| StoreRefinement.RestartSimulates | src/providers/mbed_crypto/mod.rs:81-144 | a reload followed by reconciliation is the restart step, empty application names included: same mappings, same files, same greatest id |
| StoreRefinement.StoppedStartSimulates | src/providers/mbed_crypto/mod.rs:132-140 | a start-up that stops while it removes mappings is the failed start-up step with the files it removed |
| ServiceRuns.CallSimulates | src/key_info_managers/mod.rs:221-262 | every call of a thread, of another provider, every crash and every start is a step of the system or none |
| ServiceRuns.RunSimulates | src/key_info_managers/mod.rs:221-262 | every run over the byte-level store is a run of the system that ends with the same mappings and files |
| ServiceRuns.StoredIdsNameLiveKeys | src/providers/mbed_crypto/key_management.rs:35-211 | Mbed Crypto and PKCS 11, over the bytes: after every run with any file, store or backend call failing, each stored mapping has an id that decodes and names a live key, provided no two creations of one triple overlap |
| ServiceRuns.StoredIdsAreDistinct | src/key_info_managers/mod.rs:162-262 | over the bytes, restarts included, no two mappings of a provider hold one id |
| KeySlots.UsageIsByUse | src/providers/cryptoauthlib/key_slot.rs:112-156 | a set of usage flags passes exactly when each use by itself is allowed by the slot for that type of key |
| KeySlots.SlotsByType | src/providers/cryptoauthlib/key_slot.rs:44-278 | slot by slot, exactly which keys an AES, a text, a P-256 or any other slot takes: types, sizes, uses and algorithms together |
| KeySlots.CompatibilityChain | src/providers/cryptoauthlib/key_slot.rs:44-278 | fit for import implies fit for generation implies fit for start-up, and exactly which key pairs and write configurations tell them apart |
| KeySlots.DeviceTypeMatches | src/providers/cryptoauthlib/key_management.rs:307-325 | the device has a type for every key that a slot takes except HMAC keys, and it is the one the slot is configured for |
| KeySlots.OnlyPublicKeysAreRefused | src/providers/cryptoauthlib/key_management.rs:253-276 | once the type is known to the device, extraction fails exactly for public keys that are not 65 bytes long |
| KeySlotStorage.LastEntryCounts | src/providers/cryptoauthlib/key_slot_storage.rs:64-83 | the last entry of the device for a slot decides: the slot is locked if it says so and free if not, has its configuration and is unused |
| KeySlotStorage.UnreportedSlotStays | src/providers/cryptoauthlib/key_slot_storage.rs:64-83 | a slot without an entry stays as it was |
| KeySlotStorage.KeySlotStorage.KeyValidateAndMarkBusy | src/providers/cryptoauthlib/key_slot_storage.rs:26-62 | when a stored mapping is refused, warned about or marks its slot busy |
| KeySlotStorage.KeySlotStorage.SetHwConfig | src/providers/cryptoauthlib/key_slot_storage.rs:64-83 | the table after the device's report |
| KeySlotStorage.KeySlotStorage.SetSlotStatus | src/providers/cryptoauthlib/key_slot_storage.rs:86-94 | refused exactly for a locked slot or the locked status; otherwise that slot alone changes |
| KeySlotStorage.KeySlotStorage.FindSuitableSlot | src/providers/cryptoauthlib/key_slot_storage.rs:97-124 | reserves the least-numbered free compatible slot, changes only it, and refuses exactly when there is none |
| KeySlotStorage.HandedOutSlotIsValid | src/providers/cryptoauthlib/key_slot_storage.rs:39-46 | a slot handed out for import or generation passes the check of start-up for the same attributes |
| SlotLifecycle.SearchIsLeast | src/providers/cryptoauthlib/key_slot_storage.rs:97-124 | the search of the step system finds the slot that the method reserves |
| SlotOwnership.BusySlotsHaveOneOwner | src/providers/cryptoauthlib/key_management.rs:16-171 | in every run without overlap on one triple, with any device and store failures, each busy slot has exactly one owner, no mapping points at a free slot, as many slots leak as imports were refused, and exactly the slots that the device reports as locked are locked, with nobody ever owning one |
| SlotOwnership.OnlyRefusedImportsLeak | src/providers/cryptoauthlib/key_management.rs:120-123 | in every run without overlap, a creation with a reserved slot loses it in its next step if and only if it imports a public key of another length than 65; the slot is then busy in every continuation up to the next restart, and no slot is after that |
| SlotOwnership.ClashesAreTheFlaw | src/providers/cryptoauthlib/key_management.rs:42-98 | whatever overlaps, a step keeps the account if and only if it neither stores over a mapping nor removes one that was made anew |
| SlotOverlap.OverlapBreaksTheLedger | src/providers/cryptoauthlib/key_management.rs:21-58 | on every device with two suitable free slots two overlapping creations end with a mapping to a free slot and a busy slot without owner |
| SlotOverlap.TwoAesSlots | src/providers/cryptoauthlib/key_slot_storage.rs:97-124 | there are such devices |
| CalibProvider.Provider.GenerateKey | src/providers/cryptoauthlib/key_management.rs:16-72 | maps the triple to the least suitable slot or changes nothing, exactly when, and when the triple exists or storage runs out |
| CalibProvider.Provider.ImportKey | src/providers/cryptoauthlib/key_management.rs:102-171 | the same, except that a public key of another length than 65 costs a slot |
| CalibProvider.Provider.DestroyKey | src/providers/cryptoauthlib/key_management.rs:74-100 | removes the mapping and frees its slot, or changes nothing |
| CalibProvider.Start | src/providers/cryptoauthlib/mod.rs:49-190 | a started provider has no mappings, no mapping files and no busy slots, and the mappings and files of the other providers are as before |
| Names.SortedIsSorted | src/providers/core/mod.rs:125-126 | sorting puts the names in byte order and keeps each as often as it was there |
| Names.DedupedIsStrictlySorted | src/providers/core/mod.rs:125-126 | deduplicating sorted names leaves them strictly sorted |
| Names.StrictlySortedIsUnique | src/providers/core/mod.rs:125-126 | the list of clients is determined by the set of clients |
| CoreProvider.DestroyKey | src/providers/tpm/key_management.rs:227-238 | a destroy takes the mapping away exactly when its key store calls succeed, whatever the backend answers |
| CoreProvider.DeleteFrom | src/providers/core/mod.rs:136-164 | one provider loses exactly the client's mappings whose key store calls succeed |
| CoreProvider.DeletionIsComplete | src/providers/core/mod.rs:131-168 | no mapping of the client is left if and only if every listing and key store call for it succeeded, and other clients keep theirs |
| CoreProvider.CoreProvider.ListKeys | src/providers/core/mod.rs:81-104 | each mapping of the application once across providers, and nothing else |
| CoreProvider.CoreProvider.ListClients | src/providers/core/mod.rs:106-129 | strictly sorted, and exactly the applications that own a mapping in a provider that answers |
| CoreProvider.CoreProvider.DeleteClient | src/providers/core/mod.rs:131-168 | over all providers, shared key info managers included, every store loses exactly what the deletion can take |
| CoreProvider.CoreProvider.DeleteNext | src/providers/core/mod.rs:136-164 | what the next provider takes from the managers is independent of what earlier ones took |
| Requests.FrontEndHandler.HandleRequest | src/front/front_end.rs:43-123 | exactly one write is attempted for each connection and at most one provider call is made; a request that cannot be read is answered with its error |
| Requests.RunsExactlyWhatItMay | src/back/backend_handler.rs:61-282 | a request leads to a provider call if and only if provider, body types, opcode, identity and rights allow it |
| Requests.AnswerIsTheOutcome | src/back/backend_handler.rs:42-131 | the response to a request that makes a call is the converted result with Success, or the provider's or the converter's own status with an empty body, under the header of the request |
| Requests.SuccessIsEarned | src/back/backend_handler.rs:85-282 | a request is answered Success if and only if it may make a call that succeeds and whose result converts; every other answer has an empty body |
| Requests.StatusTellsTheCause | src/back/dispatcher.rs:35-50 | each status of the service's own is answered exactly for its cause, in the order of the checks |
| Requests.FailuresArePassedOn | src/front/front_end.rs:60-105 | what an authenticator or the converter fails with is the answer |
| Requests.CallsAreAuthorised | src/back/backend_handler.rs:88-109 | core operations run on the core provider only, keyed ones under the authenticated name, admin ones for admins, with the operations of each class named |
| Requests.WrongProviderIdIsUnreachable | src/back/dispatcher.rs:35-50 | in a built service the provider id check never fails |
| ServiceBuilder.BuildManagers | src/utils/service_builder.rs:399-408 | the names of the managers, unless one cannot be made |
| ServiceBuilder.BuildProviders | src/utils/service_builder.rs:207-256 | the created providers in order and with distinct ids, and exactly which configurations are refused |
| ServiceBuilder.BuildCore | src/providers/core/mod.rs:232-246 | the core provider is built exactly when every provider can describe itself |
| ServiceBuilder.BuildBackendHandlers | src/utils/service_builder.rs:165-205 | one handler for each provider under its own id and one for the core provider, unless an authenticator or a provider cannot describe itself |
| ServiceBuilder.BuildService | src/utils/service_builder.rs:90-141 | a service is built exactly when the managers, the configured providers, the authenticators and the core provider can be made and there is a provider; its handlers are those of the created providers and of the core provider over them, each under its own id |

## Left out

- Socket listener, peer credentials, signals and command line: operating system plumbing.
- The interface, PSA and CryptoAuthLib crates are not part of this model: the classes of opcodes, the range of user key ids and the number of slots are written down as constants.
- Authenticators: each is a function from the request's authentication bytes and the connection's metadata to an application.
- Cryptographic results and the backend libraries: a backend is a set of keys with calls that may fail.
- Sign, encrypt, hash and random operations: they occur in the lifecycle only as readers that fetch an id and use it.
- The RPC context of the Trusted Service: foreign calls and generated code.
- The byte wrappers of the TPM and CryptoAuthLib providers: simple round trips.
- Key creation in the TPM provider: it keeps the whole key in the mapping, so nothing else can get out of step.
- Error translation tables, logging, zeroizing, configuration parsing, builder setters and descriptions.
- The serialisation and protobuf formats: assumed to read back what they wrote.
- Decoders that accept more base64 texts than RFC 4648 asks for: the decoder here is the strict one.
- ServiceBuilder.BuildService: the version and UUID constants of the core provider are taken to parse, and every builder field is set, as in the source.
- Providers.Provider.CreateKey: the checks on attributes before the existence check are not modelled, because they touch no state.
- StartUp.StartPsaProvider: the initialisation of the backend library is not modelled; a failure there stops start-up before anything is read.
- CalibProvider.Start: the list of supported opcodes and the access keys are not modelled, and neither are the checks behind the existence check, which no listed triple reaches.
- Requests.WrongProviderIdIsUnreachable: says nothing of a provider or converter that answers WrongProviderId of its own accord.
