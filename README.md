# multi-cluster: a Dafny model of the cluster registry and its handles

This project models the core of `multi-cluster`, a controller that manages a fleet of member
Kubernetes clusters from one process. The model covers:

- the **lifecycle codes** of a member cluster (Disabled < Stopped < Started < Waiting < Ready);
- the **cluster handle**, with its Start / Stop / Disable state machine and the sub-clients it
  builds once;
- the **builder**, which turns a cluster name into a handle through a chain of fallible steps;
- the **pool**, the name-to-handle registry that refuses to replace an active handle;
- the **caching REST mapper** each handle owns. It has a positive cache, a negative cache with
  a 300-second recheck window, and a single-version mapping cache. A reload empties all three;
- the **chunking** used to size PKCS #1 v1.5 blocks when secrets are encrypted;
- the **admission webhook** rule that a cluster description must name a secret, a kubeconfig
  or a token.

One Dafny module models each source file:

| module | file | form |
|---|---|---|
| `ClusterStatus` | `status.dfy` | functions and lemmas |
| `Cluster` | `cluster.dfy` | class `Handle` with ghost task state; `New` with its option loop |
| `ClusterBuilder` | `builder.dfy` | class `Builder` with fluent setters and `Complete` |
| `Pool` | `pool.dfy` | class `Pool` over a `map<string, Handle>` |
| `Mapper` | `mapper.dfy` | class `CachedMapper` over three maps and a wrapped mapper |
| `RsaChunks` | `rsa.dfy` | the `Split` loop, its specification `Chunks`, block sizes |
| `Validating` | `validating.dfy` | pure validators and the request dispatch |

`Results` holds `Option` and `Result`. `Api` holds the parts of a cluster description that the
builder and the webhook read.

Calls into code outside the core become parameters or values:

- the master client's `Get` becomes a lookup function;
- `utils.BuildConfig` becomes a resolver function passed to `Complete`;
- each sub-client constructor becomes one of its possible outcomes;
- the wrapped REST mapper becomes a record of total functions;
- the clock becomes an integer argument `now` in nanoseconds.

The background cache task and its cancel function are ghost state on the handle. `tokens`
counts the cancellable contexts Start creates, `cancels` counts the cancel calls, and
`taskLive` says whether the cache task is running. `Handle.Valid()` ties them to the status: the
task runs exactly while the status is Started or above, and every context but the live one
has been cancelled exactly once.

The accessors `Name`, `Status`, `Client`, `Cache`, `ApiExtensions`, `Dynamic`, `RESTMapper`,
`Config` and `Discovery` (pkg/cluster/cluster.go:127-168) read fields. In the model they are the
handle's fields. Apart from `status`, each is a `const`, so no operation can rebind a sub-client.

Where the code and its design description disagree, the model follows the code:

- A recently failed `KindFor` returns the sentinel `NearErr`, not the original error.
- A success in `KindFor` does not clear the failure entry. The two caches still never share a
  key (`Mapper.CachesDisjoint`). This holds because the wrapped mapper gives the same answer
  until a reload, and a reload empties both caches.
- `New` applies the options before `Complete` disables the handle, not after.
- `New` never assigns `name` or `config`. The model keeps that: every handle `Complete` returns
  has the empty name and no configuration.

Where the code is evidently wrong, the model builds the intended behaviour instead:

- `New` (pkg/cluster/cluster.go:56-59) writes through a nil `*cluster` and would panic on every
  call. The model builds the evidently intended fresh handle.

## Model

| member | source | states |
|---|---|---|
| `ClusterStatus.CodeOrder` | pkg/cluster/status.go:21-34 | the five codes are strictly ordered Disabled < Stopped < Started < Waiting < Ready, and the name table has one entry per code |
| `ClusterStatus.StringAsWritten` | pkg/cluster/status.go:36-41 | as written, a code prints "unknown" exactly when it is Ready or above |
| `ClusterStatus.String` | pkg/cluster/status.go:34-41 | as intended, each named code prints its own table entry, and exactly the unnamed codes print "unknown" |
| `ClusterStatus.ReadyPrintsUnknown` | pkg/cluster/status.go:37-40 | as written, Ready prints "unknown"; the intended String prints "ready" |
| `ClusterStatus.StringAsWrittenDiffersOnlyOnReady` | pkg/cluster/status.go:36-41 | the written and intended String agree on every non-negative code except Ready |
| `ClusterStatus.StringInjective` | pkg/cluster/status.go:34 | the intended String gives the five codes five different names |
| `Cluster.Handle.constructor` | pkg/cluster/cluster.go:38-51 | a new handle holds the given sub-clients, is Stopped, has no running task and has created no context |
| `Cluster.Handle.Start` | pkg/cluster/cluster.go:97-114 | only Stopped moves: one new context, a live task, status Started; Disabled and Started-or-above are unchanged; an error comes back exactly for a status below Disabled; no cancel happens |
| `Cluster.Handle.Stop` | pkg/cluster/cluster.go:116-125 | a status above Stopped is cancelled once and becomes Stopped; Disabled and Stopped are unchanged; afterwards no task runs |
| `Cluster.Handle.Disable` | pkg/cluster/cluster.go:135-140 | always ends Disabled with no task running, cancelling once exactly when the status was Started or above |
| `Cluster.WiringError` | pkg/cluster/cluster.go:59-83 | a wiring error exists exactly when one of the seven sub-client constructors fails |
| `Cluster.FirstFailure` | pkg/cluster/cluster.go:88-92 | there is no failure exactly when every option succeeds |
| `Cluster.FirstFailureAt` | pkg/cluster/cluster.go:88-92 | a failing option preceded only by succeeding ones supplies the reported cause |
| `Cluster.FirstFailureIsEarliest` | pkg/cluster/cluster.go:88-92 | the reported cause belongs to a failing option that every earlier option passed |
| `Cluster.New` | pkg/cluster/cluster.go:55-95 | the first failing sub-client constructor, then the first failing option, gives the wrapped error and no handle; otherwise a fresh valid Stopped handle holds the built sub-clients and an empty reloading mapper, with empty name and no config |
| `Cluster.LifecycleIdempotent` | pkg/cluster/cluster.go:97-125 | Start twice is Start once; Stop twice is Stop once |
| `Cluster.StartStopRoundTrip` | pkg/cluster/cluster.go:97-125 | starting and then stopping a valid Stopped handle leaves it valid and Stopped with no task running, one more context created and that context cancelled |
| `Cluster.DisabledStaysDisabled` | pkg/cluster/cluster.go:97-140 | no sequence of Start, Stop and Disable takes a Disabled handle out of Disabled |
| `Cluster.NeverWaitingOrReady` | pkg/cluster/cluster.go:97-140 | from Disabled, Stopped or Started, no sequence of public operations reaches Waiting or Ready |
| `ClusterBuilder.Builder.By` | pkg/cluster/builder.go:22-24 | a new builder holds only the master client |
| `ClusterBuilder.Builder.WithScheme` | pkg/cluster/builder.go:26-32 | stores the scheme, nil included, changes no other field and returns the same builder |
| `ClusterBuilder.Builder.WithOptions` | pkg/cluster/builder.go:34-37 | replaces the options, changes no other field and returns the same builder |
| `ClusterBuilder.Builder.Named` | pkg/cluster/builder.go:39-42 | stores the name, changes no other field and returns the same builder |
| `ClusterBuilder.Builder.LoadClusterCR` | pkg/cluster/builder.go:66-74 | no master client, then an empty name, fail with their messages; otherwise the master's answer for the name |
| `ClusterBuilder.Builder.Complete` | pkg/cluster/builder.go:44-64 | a nil scheme fails before any step; each later failure ends the chain with its wrapped message, and the steps taken are exactly those up to it; success gives a fresh valid handle, Disabled if the description says so and Stopped otherwise, bound to the sub-clients and the reloading mapper built from the resolved configuration, with empty mapper caches and no context created or cancelled |
| `Pool.Pool.constructor` | pkg/pool/pool.go:34-49 | a new pool is valid and empty |
| `Pool.Pool.Add` | pkg/pool/pool.go:70-81 | refuses, changing nothing, exactly when an entry of the same name is Started, Ready or Waiting; otherwise files the handle under its name and changes no other key; every key keeps naming its own handle |
| `Pool.Pool.Remove` | pkg/pool/pool.go:83-90 | a present name's handle is stopped (one cancel if it was running, no new context) and stays valid, and exactly that key is deleted; an absent name changes nothing |
| `Pool.Pool.Cluster` | pkg/pool/pool.go:92-96 | the filed handle, or null exactly when the name is absent |
| `Pool.Pool.Clusters` | pkg/pool/pool.go:98-106 | the copy built entry by entry equals the registry at the time of the call |
| `Pool.Pool.Start` | pkg/pool/pool.go:51-60 | there is no error exactly when every handle is at Disabled or above, and then every handle got Start's transition; an error is Start's error for some handle below Disabled; each handle is either started or untouched; a context is created exactly for each handle moved from Stopped to Started, and none is cancelled |
| `Pool.Pool.Stop` | pkg/pool/pool.go:62-68 | every handle got Stop's transition and none has a running task; each handle above Stopped had its context cancelled exactly once, and no context was created |
| `Pool.StopAllThenRemove` | pkg/pool/pool.go:62-96 | with "a" Started and "b" Stopped, stopping all then removing "a" leaves both Stopped, "a" absent and "b" still filed |
| `Mapper.CachedMapper.constructor` | pkg/mapper/restmapper.go:112-117 | wraps the given mapper with three empty caches and the given window |
| `Mapper.CachedMapper.KindFor` | pkg/mapper/restmapper.go:50-70 | a positive entry answers without a query; a failure younger than the window answers NearErr without a query; otherwise one query, with a success stored in the positive cache and a failure time-stamped in the negative cache; an answer is never a kind the wrapped mapper would not give, and NearErr is returned only for a resource the last discovered mapper fails on |
| `Mapper.CachesDisjoint` | pkg/mapper/restmapper.go:50-70 | in a valid mapper no resource has both a positive and a negative entry |
| `Mapper.ThrottleThenRecheck` | pkg/mapper/restmapper.go:55-66 | a lookup failing at t answers NearErr without a query at t + eps inside the window, and queries again, failing the same way, once the window has passed |
| `Mapper.CachedMapper.KindsFor` | pkg/mapper/restmapper.go:72-74 | passes the wrapped mapper's answer through; the caches play no part |
| `Mapper.CachedMapper.ResourceFor` | pkg/mapper/restmapper.go:76-78 | passes the wrapped mapper's answer through; the caches play no part |
| `Mapper.CachedMapper.ResourcesFor` | pkg/mapper/restmapper.go:80-82 | passes the wrapped mapper's answer through; the caches play no part |
| `Mapper.CachedMapper.RESTMapping` | pkg/mapper/restmapper.go:84-102 | no version fails with NoVersion and no query; several versions query without caching; one version answers from the cache, or queries once and caches only a success; with any version the answer equals the wrapped mapper's |
| `Mapper.CachedMapper.RESTMappings` | pkg/mapper/restmapper.go:104-106 | passes the wrapped mapper's answer through; the caches play no part |
| `Mapper.CachedMapper.ResourceSingularizer` | pkg/mapper/restmapper.go:108-110 | passes the wrapped mapper's answer through; the caches play no part |
| `Mapper.CachedMapper.Reload` | pkg/mapper/restmapper.go:123-132 | a successful discovery empties all three caches and installs the new mapper; a failed one changes nothing and returns its error |
| `Mapper.GetGroupVersionResource` | pkg/mapper/restmapper.go:32-38 | the resource of the wrapped mapper's single-version mapping, or its error; the kind caches are untouched, a cached mapping answers without a query, and otherwise one query is made and only a success is cached |
| `Mapper.NewCachedRESTMapper` | pkg/mapper/restmapper.go:112-140 | a given mapper is wrapped without a reload callback; otherwise a failed discovery client, then a failed dynamic mapper, are returned as errors, and success wraps the dynamic mapper with reloading; the caches start empty with the 300 s window |
| `Mapper.Provider` | pkg/mapper/restmapper.go:142-144 | always builds the discovery-backed, reloading mapper, or returns the first construction error |
| `RsaChunks.Split` | pkg/utils/rsa.go:67-78 | the loop returns exactly `Chunks(buf, lim)`, and the pieces join back into `buf` |
| `RsaChunks.ChunksConcat` | pkg/utils/rsa.go:67-78 | joining the pieces gives the buffer back |
| `RsaChunks.ChunksShape` | pkg/utils/rsa.go:70-76 | no piece is empty or longer than lim, and every piece but the last is exactly lim |
| `RsaChunks.ChunksCount` | pkg/utils/rsa.go:69-77 | the number of pieces is ceil(len/lim), so an empty buffer gives none |
| `RsaChunks.ChunksOfConcat` | pkg/utils/rsa.go:67-78 | well-shaped pieces, once joined, are cut back into exactly the same pieces |
| `RsaChunks.ModulusOctets` | pkg/utils/rsa.go:35 | k is the least number of octets holding a modulus of the given bit length |
| `RsaChunks.EncryptBlockSize` | pkg/utils/rsa.go:35 | the plaintext piece size never exceeds k - 11 (section 7.2.1 of RFC 8017), equals it for whole-octet moduli, and is positive exactly from 96 bits |
| `RsaChunks.DecryptBlockSizeAsWritten` | pkg/utils/rsa.go:52 | as written, the ciphertext piece size equals k exactly for whole-octet moduli |
| `RsaChunks.DecryptBlockSize` | pkg/utils/rsa.go:52 | as intended, the ciphertext piece size is k, which agrees with the written size for whole-octet moduli |
| `RsaChunks.PlaintextPiecesFit` | pkg/utils/rsa.go:35-36 | every plaintext piece is non-empty and within k - 11 octets, and the pieces join back into the plaintext |
| `RsaChunks.CiphertextsRecovered` | pkg/utils/rsa.go:52-54 | cutting joined k-octet ciphertexts gives back exactly those ciphertexts |
| `RsaChunks.DecryptAsWrittenMissplits` | pkg/utils/rsa.go:52-54 | as written, a 2047-bit modulus cuts one 256-octet ciphertext into 255 and 1 octets |
| `Validating.ValidateSpecConnectConfig` | pkg/webhook/cluster/validating/cluster_create_update_handler.go:102-107 | no error exactly when a secret, config or token is set; otherwise exactly one Invalid error at the path |
| `Validating.ValidateClusterSpec` | pkg/webhook/cluster/validating/cluster_create_update_handler.go:98-100 | a spec is checked by its connection config at the path extended by ConnectConfig, and passes exactly when it names a reference |
| `Validating.ValidateCluster` | pkg/webhook/cluster/validating/cluster_create_update_handler.go:94-96 | equals the connection check at Spec.ConnectConfig, so a description is valid exactly when it names a reference |
| `Validating.ValidateClusterUpdate` | pkg/webhook/cluster/validating/cluster_create_update_handler.go:80-92 | a failed fetch of the stored object gives one internal error at "cluster"; otherwise the errors of ValidateCluster on the new object |
| `Validating.UpdateIgnoresOldObject` | pkg/webhook/cluster/validating/cluster_create_update_handler.go:80-92 | the old object never influences the update's errors |
| `Validating.Handle` | pkg/webhook/cluster/validating/cluster_create_update_handler.go:49-78 | for create and update, an object that fails to decode gives 400 and validation errors give 422; every other operation is allowed; only 400 and 422 are ever returned |
| `Validating.AllowedExactly` | pkg/webhook/cluster/validating/cluster_create_update_handler.go:49-78 | a request is allowed exactly when it is neither create nor update, or it decodes, can be fetched when it is an update, and names a connection reference |

## Findings

| source | as written | input that shows it | evidently intended | confidence | as-written member | corrected member |
|---|---|---|---|---|---|---|
| pkg/cluster/status.go:37 | the guard is `int(c) < len(codes)-1` | c = Ready (4) prints "unknown" although "ready" is in the table | `int(c) < len(codes)`, so that Ready prints "ready" | high; not executed | `ClusterStatus.StringAsWritten`, shown by `ClusterStatus.ReadyPrintsUnknown` | `ClusterStatus.String`, proved by `ClusterStatus.StringInjective` |
| pkg/utils/rsa.go:52 | the decryption piece size is `key.N.BitLen() / 8` | with a 2047-bit modulus, k = 256, and one 256-octet ciphertext is cut into 255 + 1 octets | the modulus length in octets, ceil(BitLen / 8), as in section 2 of RFC 8017 | medium (the 2048-bit default keys are unaffected); not executed | `RsaChunks.DecryptBlockSizeAsWritten`, shown by `RsaChunks.DecryptAsWrittenMissplits` | `RsaChunks.DecryptBlockSize`, proved by `RsaChunks.CiphertextsRecovered` |

## Left out

- Concurrency is not modelled: the pool's `sync.RWMutex`, the mapper's `sync.Map`s and the goroutine running the cache (pkg/cluster/cluster.go:105-107). Every operation runs alone.
- The parent context given to `Start` is not modelled. Only the derived context and its cancel function appear, as ghost counters.
- The background cache task is not modelled. Nothing in the core moves a handle to Waiting or Ready.
- Logging (`klog`) is not modelled. `Cluster.String` and the error texts of `Start` and `Add` are not modelled either. Those errors are structured values carrying the same name and status.
- `InitOptions`: an option is modelled only by whether it fails and why. Its effects on the handle through the cluster interface are not modelled.
- The sub-client constructors in `New` are not modelled. Each is reduced to its outcome, and sub-clients other than the mapper are opaque identities.
- `utils.BuildConfig` and the secret getter (pkg/cluster/builder.go:76-93) are not part of this model. `Complete` takes the resolver as a function.
- Mapper: the caches are keyed by the resource value, not by its `String()` text. A REST mapping's scope and the partial mapping returned next to an error are dropped.
- Mapper: within the recheck window `KindFor` answers `NearErr` without asking the dynamic mapper, so that mapper does not get to reload discovery on the miss. A resource that starts being served inside the window (a CRD installed just after a failed lookup) stays hidden until the window passes or another lookup triggers a reload. The model's `source` is the last discovered snapshot, so this delay is not visible in it.
- Mapper: the wrapped mapper is a fixed function until a reload, and a wrapped mapper given at construction never changes. The dynamic mapper's own reloading inside a lookup is modelled as a `Reload` call just before that lookup. Building the discovery REST mapper from API group resources is not modelled.
- `Pool.Pool.Start`: on an error it states only that each handle was either started or left alone. The handles visited before the failing one are not named, because Go visits a map in an unspecified order.
- `Pool.New`'s master client (pkg/pool/pool.go:36-43) is not modelled. The constructor builds only the empty map.
- RSA encryption and decryption, base64 coding, key generation and PEM encoding (pkg/utils/rsa.go:34-66, 80-89) are library calls. Only `split` and the block-size arithmetic are modelled.
- The webhook's `InjectClient` and `InjectDecoder` (lines 109-119) are not modelled. They only store what the framework supplies. Decoding is reduced to its outcome inside the request.
- The declarative types (api/v1beta1/cluster_types.go) are reduced to the `disabled` flag and the three connection references. The controller glue, the pool's flag options and the filesystem helpers are not part of this model.
