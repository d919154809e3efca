/**
 * The plugin's background coordinator (`BackgroundAPI`): it keeps a click
 * count persisted in the host's store and a list of pages to tell when the
 * count changes.  The two IPC handlers it installs, "example-update" and
 * "example-register-page", are its methods `Update` and `Register`.
 */
module Background {
  import opened Wrappers
  import opened JsonNumber
  import opened Storage
  import opened Listeners

  class BackgroundApi {
    var count: nat
    var listeners: seq<ContentId>
    /** The host's store, as far as this coordinator reads and writes it. */
    var store: Store

    /** The count in memory is the count a fresh construction would load. */
    ghost predicate Valid()
      reads this
    {
      LoadCount(store) == Ok(count)
    }

    /** Construction when the stored count can be read; `Open` covers the
        case where it cannot. */
    constructor (store: Store)
      requires LoadCount(store).Ok?
      ensures Valid()
      ensures this.store == store && listeners == []
      ensures count == LoadCount(store).value
      ensures GetItem(store, "example", "count") in {None, Some("")} ==> count == 0
    {
      this.listeners := [];
      this.count := 0;
      this.store := store;
      var value := GetItem(store, "example", "count");
      if value.Some? && value.value != "" {
        this.count := Parse(value.value).value;
      }
    }

    /**
     * The "example-update" handler: count one more click, persist it, and
     * broadcast the new count to the listeners.  `sent` lists the send
     * attempts in the order made.
     */
    method Update(send: Send) returns (sent: seq<(ContentId, nat)>)
      requires Valid()
      modifies this
      ensures Valid()
      ensures count == old(count) + 1
      ensures store == old(store)[CountKey := Stringify(count)]
      ensures sent == Attempts(old(listeners), count)
      ensures listeners == Live(old(listeners), send, count)
    {
      count := count + 1;
      store := SetItem(store, "example", "count", Stringify(count));
      PersistRoundTrip(old(store), count);
      sent := Broadcast(send);
    }

    /**
     * The loop of the "example-update" handler: send `count` to each listener
     * in turn; a listener whose send fails is spliced out where it stands and
     * the index is stepped back, so that the next listener, now at the same
     * index, is not skipped.
     */
    method Broadcast(send: Send) returns (sent: seq<(ContentId, nat)>)
      modifies this`listeners
      ensures sent == Attempts(old(listeners), count)
      ensures listeners == Live(old(listeners), send, count)
    {
      ghost var orig := listeners;
      ghost var k := 0;        // how many of the original listeners have been tried
      ghost var done := [];    // the survivors among those
      sent := [];
      var ldx: int := 0;
      assert orig[..0] == [] && orig[0..] == orig;
      while ldx < |listeners|
        invariant 0 <= k <= |orig|
        invariant done == Live(orig[..k], send, count)
        invariant listeners == done + orig[k..] && ldx == |done|
        invariant sent == Attempts(orig[..k], count)
        decreases |orig| - k
      {
        PruneStep(orig, k, done, send, count);
        AttemptsStep(orig, k, count);
        sent := sent + [(listeners[ldx], count)];
        if !send(listeners[ldx], count) {
          listeners := listeners[..ldx] + listeners[ldx + 1..];
          ldx := ldx - 1;
        } else {
          done := done + [orig[k]];
        }
        ldx := ldx + 1;
        k := k + 1;
      }
      assert k == |orig| && orig[..k] == orig;
    }

    /**
     * The "example-register-page" handler: add the page's id at the end of
     * the listener list, even if it is already there, and answer with the
     * current count.
     */
    method Register(id: ContentId) returns (c: nat)
      requires Valid()
      modifies this
      ensures Valid()
      ensures listeners == old(listeners) + [id]
      ensures count == old(count) && store == old(store)
      ensures c == count
    {
      listeners := listeners + [id];
      c := count;
    }

    /** `destroy` has an empty body: nothing changes and both handlers stay
        installed. */
    method Destroy()
      ensures unchanged(this)
    {
    }
  }

  /**
   * Constructing the coordinator against `store`: the source's constructor
   * calls `JSON.parse` on a truthy stored value without catching, so a value
   * that is not a count makes construction fail.
   */
  method Open(store: Store) returns (r: Result<BackgroundApi, LoadError>)
    ensures r.Ok? <==> LoadCount(store).Ok?
    ensures r.Ok? ==> fresh(r.value) && r.value.Valid()
    ensures r.Ok? ==> r.value.count == LoadCount(store).value
    ensures r.Ok? ==> r.value.listeners == [] && r.value.store == store
    ensures r.Err? ==> r.error == LoadCount(store).error
  {
    var loaded := LoadCount(store);
    if loaded.Err? {
      return Err(loaded.error);
    }
    var api := new BackgroundApi(store);
    return Ok(api);
  }

  /**
   * A session from an empty store: page 1 registers, a click is broadcast to
   * it, page 2 registers, page 1 closes, and the next click reaches only
   * page 2, which is all that is left registered.
   */
  method ExampleSession() {
    var api := new BackgroundApi(map[]);
    var c := api.Register(1);
    assert c == 0 && api.listeners == [1];

    var alive := (id: ContentId, v: nat) => true;
    LiveAllAlive([1], alive, 1);
    var sent := api.Update(alive);
    assert sent == [(1, 1)] && api.listeners == [1];
    assert Stringify(1) == "1";
    assert api.store[CountKey] == "1";

    c := api.Register(2);
    assert c == 1 && api.listeners == [1, 2];
    var closed := (id: ContentId, v: nat) => id != 1;
    LiveSnoc([1], 2, closed, 2);
    LiveSnoc([], 1, closed, 2);
    sent := api.Update(closed);
    assert sent == [(1, 2), (2, 2)];
    assert api.listeners == [2] && api.count == 2;
  }

  /** A page that registers twice is sent every later count twice. */
  method DuplicateRegistration() {
    var api := new BackgroundApi(map[]);
    var c := api.Register(2);
    c := api.Register(2);
    assert api.listeners == [2, 2];
    var alive := (id: ContentId, v: nat) => true;
    LiveAllAlive([2, 2], alive, 1);
    var sent := api.Update(alive);
    assert sent == [(2, 1), (2, 1)];
    assert api.listeners == [2, 2];
  }
}
