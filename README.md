# Informer cache of node-kubernetes, modelled in Dafny

This project models the cache informer of the node-kubernetes client library and
the API types it relies on.

An `Informer` owns a store of API objects. It is either supplied by the caller or
a fresh in-memory store. `start()` installs a handler on the resource client's
list-watch. The handler applies each watch event to the store:

- ADDED and MODIFIED store the object, replacing any entry with the same identity.
- DELETED pulls the object's identity.
- ERROR falls through the `switch` and changes nothing.

`start()` returns a controller that forwards the list-watch's initial-list
promise and stop function.

Files:

- `meta.dfy` (module `Meta`) holds the watch-event tag union, the closed
  enumerations of a `Status`, the `isStatus` discriminator and the object
  metadata that gives an object its identity.
- `cache.dfy` (module `Cache`) holds the store's behaviour as pure functions
  (`Upsert`, `Remove`, `Step` for one event and `Fold` for an event stream). It
  also has a reference definition, `ExpectedAt`: the entry at an identity is
  decided by the last event that acts on it. The lemmas relate the two.
  `InMemoryStore` is the store as a class whose map field is updated in place.
- `informer.dfy` (module `Informer`) holds the `Informer` class: constructor,
  handler (`Apply`), the list-watch delivering a stream to the handler
  (`Deliver`) and `Start`.

The store maps an identity, the pair (namespace, name) of the object's metadata,
to the object. `namespace` is optional, so cluster-scoped objects have the
namespace `None`.

## Model

| member | source | states |
|---|---|---|
| `Meta.ParseEventType` | src/types/meta.ts:52-55 | a watch event's type is exactly one of ADDED, MODIFIED, DELETED, ERROR: a recognised string is the name of its tag, and an unrecognised one names no tag |
| `Meta.ParseStatusValue` | src/types/meta.ts:15 | `Status.status` is exactly "Failure" or "Success" |
| `Meta.ParseStatusReason` | src/types/meta.ts:17-27 | `Status.reason` is exactly one of the eleven reasons, from BadRequest to InternalError |
| `Meta.NamesRoundTrip` | src/types/meta.ts:14-30 | every tag, status and reason literal parses back to the constructor that names it |
| `Meta.IsStatus` | src/types/meta.ts:32-34 | `isStatus` accepts exactly one value: a defined object whose `kind` is present and equal to "Status" |
| `Meta.IsStatusCharacterised` | src/types/meta.ts:32-34 | `isStatus` holds exactly for a defined value whose `kind` is present and equals "Status"; it is false for `undefined` and for an object without `kind` |
| `Meta.IsStatusRejectsOtherKinds` | src/types/meta.ts:33 | any other kind, "Pod" and "" included, is not a Status |
| `Cache.Upsert` | src/cache/informer.ts:29-33 | storing an object makes its identity map to exactly that object, adds only that identity and leaves every other entry alone |
| `Cache.Remove` | src/cache/informer.ts:34-37 | pulling an object removes its identity and no other; if the identity is absent the store is unchanged |
| `Cache.Step` | src/cache/informer.ts:28-38 | after ADDED or MODIFIED the event's identity maps to the event's object; after DELETED it is absent; ERROR leaves the store unchanged; no identity other than the event's changes; entries stay filed under their own identity |
| `Cache.FoldAt` | src/cache/informer.ts:25-38 | after any stream of events, the entry at every identity is the one the reference definition gives: decided by the last non-ERROR event for that identity, or the initial entry if there is none |
| `Cache.FoldAppend` | src/cache/informer.ts:25-38 | applying a stream in two parts gives the same store as applying it at once |
| `Cache.FoldWellKeyed` | src/cache/informer.ts:31-36 | every entry stays filed under its own object's (namespace, name) whatever events arrive |
| `Cache.ModifiedIsAdded` | src/cache/informer.ts:29-33 | MODIFIED leaves the same store as ADDED for the same object |
| `Cache.LastWriteWins` | src/cache/informer.ts:29-33 | ADDED `x` then MODIFIED `y` for the same identity leaves one entry there, equal to `y`, and nothing else changed |
| `Cache.DeleteAbsentIsNoop` | src/cache/informer.ts:34-37 | DELETED for an identity that is not in the store leaves the store unchanged and creates no entry |
| `Cache.FoldFrame` | src/cache/informer.ts:28-38 | an identity that no event of the stream acts on keeps its entry |
| `Cache.FoldErrorsIsNoop` | src/cache/informer.ts:28-38 | a stream of ERROR events leaves the store unchanged |
| `Cache.FoldDistinctUpserts` | src/cache/informer.ts:29-33 | after ADDED/MODIFIED events for distinct identities each object is cached under its identity, and every other entry is the initial one |
| `Cache.UpsertOrderIrrelevant` | src/cache/informer.ts:29-33 | any rearrangement of ADDED/MODIFIED events for distinct identities yields the same store |
| `Cache.InMemoryStore.constructor` | src/cache/informer.ts:21 | a new in-memory store is empty |
| `Cache.InMemoryStore.Store` | src/cache/informer.ts:32 | `store.store(o)` replaces the contents by their upsert with `o` |
| `Cache.InMemoryStore.Pull` | src/cache/informer.ts:36 | `store.pull(o)` replaces the contents by their removal of `o`'s identity |
| `Informer.Informer.constructor` | src/cache/informer.ts:14-22 | the informer uses the supplied store unchanged if one is given, otherwise a fresh empty in-memory store; the resource client and label selector are kept; none of the three is ever reassigned |
| `Informer.Informer.Apply` | src/cache/informer.ts:25-39 | the handler changes only the store, and leaves it equal to one `Step` of its old contents with the event |
| `Informer.Informer.Deliver` | src/cache/informer.ts:25-41 | events delivered in order leave the store equal to the fold of the handler over them, hence at every identity equal to the reference definition |
| `Informer.Informer.Start` | src/cache/informer.ts:41-46 | list-watch is requested with a handler whose effect on the store is exactly `Step` (the one `Apply` performs), for the informer's resource, with no resume version and the informer's own label selector; the controller's `waitForInitialList` is the handle's `initialized` and its `stop` is the handle's `stop`, nothing added |

## Left out

- The pluggable `Store` interface: the store module is not part of this model, and Dafny traits are not used here, so a supplied store is an `InMemoryStore`; its `store` is an upsert and its `pull` a remove-if-present by (namespace, name).
- `Informer.Informer.constructor` requires a supplied store to be well keyed. Its methods keep that true, but its `contents` field is public and could be assigned directly.
- The list-watch transport, HTTP, JSON decoding and the `initialized` promise are external. The events the transport delivers are the input of `Deliver`, and the handle it returns is the input of `Start`. The handler is recorded in the modelled call as its effect on the store's contents.
- What `stop` does: it is the external handle's own function, passed through unchanged.
- Label-selector semantics: the selector is passed through as an opaque value.
- Debug logging of each applied event.
- Event tags outside the four-literal union: the source's type admits none, so `EventType` has four constructors. ERROR is the one tag the handler ignores.
- `Status.code`, a JavaScript `number`, is an unbounded `int`: the core never does arithmetic on it.
- `Status.details`, typed `any`, and the other fields of object metadata (labels, annotations, resourceVersion, finalizers, deletion data): nothing in the core reads them.
- Relisting with `replace`, reconnection, backoff, resuming from a `resourceVersion` and rejecting stale events: the informer code has none of these. ERROR is ignored and nothing is ever replaced. The model follows the code.
- Concurrent readers and the guarantee of no mutation after `stop`: the code is single-threaded and delegates `stop`.
