/**
 The informer: owns a store, hands a handler to the resource client's
 list-watch, and applies every delivered watch event to the store.
 The list-watch transport is external; the events it delivers are an input
 sequence and the handle it returns is a parameter.
 */
module Informer {
  import opened Meta
  import opened Cache

  /** The resource client the informer watches through (opaque). */
  datatype ResourceClient = ResourceClient(path: string)

  /** A label selector, passed through without interpretation. */
  datatype LabelSelector = LabelSelector(expression: string)

  /** Stand-ins for the promise and the stop function a list-watch returns. */
  datatype InitializedPromise = InitializedPromise(id: nat)
  datatype StopFunction = StopFunction(id: nat)

  /** What `listWatch` returns: the initial-list promise and the function that ends the watch. */
  datatype WatchHandle = WatchHandle(initialized: InitializedPromise, stop: StopFunction)

  /** The handler a list-watch calls per event, as its effect on the store's contents. */
  type Handler<!B> = (Contents<B>, WatchEvent<MetadataObject<B>>) -> Contents<B>

  /** The arguments of the `listWatch` call. */
  datatype ListWatchCall<!B> = ListWatchCall(
    handler: Handler<B>,
    resource: ResourceClient,
    resourceVersion: Option<string>,
    labelSelector: Option<LabelSelector>)

  /** The lifecycle handle returned by `start()`. */
  datatype Controller = Controller(waitForInitialList: InitializedPromise, stop: StopFunction)

  class Informer<!B> {
    const resource: ResourceClient
    const labelSelector: Option<LabelSelector>
    const store: InMemoryStore<B>

    /** Uses the supplied store if there is one, otherwise a new empty in-memory store. */
    constructor (resource: ResourceClient, labelSelector: Option<LabelSelector>, store: Option<InMemoryStore<B>>)
      requires store.Some? ==> store.value.Valid()
      ensures this.resource == resource && this.labelSelector == labelSelector
      ensures store.Some? ==> this.store == store.value && unchanged(store.value)
      ensures store.None? ==> fresh(this.store) && this.store.contents == map[]
      ensures this.store.Valid()
    {
      this.resource := resource;
      this.labelSelector := labelSelector;
      if store.Some? {
        this.store := store.value;
      } else {
        this.store := new InMemoryStore();
      }
    }

    /**
     The handler `start()` installs: ADDED and MODIFIED store the object,
     DELETED pulls it, and ERROR falls through the switch untouched.
     */
    method Apply(e: WatchEvent<MetadataObject<B>>)
      requires store.Valid()
      modifies store
      ensures store.Valid()
      ensures store.contents == Step(old(store.contents), e)
    {
      match e.eventType
      case Added =>
        store.Store(e.obj);
      case Modified =>
        store.Store(e.obj);
      case Deleted =>
        store.Pull(e.obj);
      case Error =>
    }

    /** The list-watch delivering `events` to the handler, one at a time, in order. */
    method Deliver(events: seq<WatchEvent<MetadataObject<B>>>)
      requires store.Valid()
      modifies store
      ensures store.Valid()
      ensures store.contents == Fold(old(store.contents), events)
      ensures forall k :: Lookup(store.contents, k) == ExpectedAt(old(store.contents), events, k)
    {
      var i := 0;
      while i < |events|
        invariant 0 <= i <= |events|
        invariant store.Valid()
        invariant store.contents == Fold(old(store.contents), events[..i])
      {
        assert events[..i + 1][..i] == events[..i];
        Apply(events[i]);
        i := i + 1;
      }
      assert events[..i] == events;
      forall k
        ensures Lookup(store.contents, k) == ExpectedAt(old(store.contents), events, k)
      {
        FoldAt(old(store.contents), events, k);
      }
    }

    /**
     Starts the list-watch with the handler of `Apply`, no resume version and
     this informer's label selector; `handle` is what the external `listWatch` returns. The
     controller forwards the handle's promise and stop function and adds nothing.
     */
    method Start(handle: WatchHandle) returns (call: ListWatchCall<B>, controller: Controller)
      ensures forall m, e :: call.handler(m, e) == Step(m, e)
      ensures call.resource == resource
      ensures call.resourceVersion == None
      ensures call.labelSelector == labelSelector
      ensures controller.waitForInitialList == handle.initialized
      ensures controller.stop == handle.stop
    {
      call := ListWatchCall((m, e) => Step(m, e), resource, None, labelSelector);
      controller := Controller(handle.initialized, handle.stop);
    }
  }
}
