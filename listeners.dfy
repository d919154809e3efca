/**
 * The listener list of the background coordinator and what one broadcast
 * round leaves of it: the listeners whose delivery succeeded, in their
 * original order.
 */
module Listeners {

  /** A renderer's webContents id, as a page registers it. */
  type ContentId = int

  /** `ipc.sendTo(listener, "example-count-updated", value)`: true when the
      destination still exists and the message was handed to it. */
  type Send = (ContentId, nat) -> bool

  function Kept(x: ContentId, send: Send, v: nat): seq<ContentId> {
    if send(x, v) then [x] else []
  }

  /** The order-preserving filter of `ls` to the listeners that accept `v`. */
  function Live(ls: seq<ContentId>, send: Send, v: nat): seq<ContentId> {
    if ls == [] then [] else Live(ls[..|ls| - 1], send, v) + Kept(ls[|ls| - 1], send, v)
  }

  /** The sends one round makes: one per listener of `ls`, in list order,
      each carrying `v`. */
  function Attempts(ls: seq<ContentId>, v: nat): seq<(ContentId, nat)> {
    if ls == [] then [] else Attempts(ls[..|ls| - 1], v) + [(ls[|ls| - 1], v)]
  }

  /** How many deliveries of `v` to the listeners of `ls` fail. */
  function Failures(ls: seq<ContentId>, send: Send, v: nat): nat {
    if ls == [] then 0
    else Failures(ls[..|ls| - 1], send, v) + (if send(ls[|ls| - 1], v) then 0 else 1)
  }

  /** One more listener tried: the filter grows by that listener or not at all. */
  lemma {:induction false} LiveSnoc(ls: seq<ContentId>, x: ContentId, send: Send, v: nat)
    ensures Live(ls + [x], send, v) == Live(ls, send, v) + Kept(x, send, v)
  {
    assert (ls + [x])[..|ls|] == ls;
  }

  /** The state of the pruning loop after trying listener `k` of `orig`. */
  lemma LiveStep(orig: seq<ContentId>, k: nat, send: Send, v: nat)
    requires k < |orig|
    ensures Live(orig[..k + 1], send, v) == Live(orig[..k], send, v) + Kept(orig[k], send, v)
  {
    assert orig[..k + 1] == orig[..k] + [orig[k]];
    LiveSnoc(orig[..k], orig[k], send, v);
  }

  /** Trying listener `k` of `orig` adds one send to the round's log. */
  lemma AttemptsStep(orig: seq<ContentId>, k: nat, v: nat)
    requires k < |orig|
    ensures Attempts(orig[..k + 1], v) == Attempts(orig[..k], v) + [(orig[k], v)]
  {
    assert orig[..k + 1][..k] == orig[..k];
  }

  /**
   * One step of the pruning loop.  Before trying listener `k` of `orig`, the
   * list is the survivors so far, `done`, followed by the untried rest, so
   * listener `k` sits at index `|done|`.  Keeping it, or splicing it out,
   * gives the same picture for `k + 1`.
   */
  lemma PruneStep(orig: seq<ContentId>, k: nat, done: seq<ContentId>, send: Send, v: nat)
    requires k < |orig| && done == Live(orig[..k], send, v)
    ensures (done + orig[k..])[|done|] == orig[k]
    ensures send(orig[k], v) ==>
              done + [orig[k]] == Live(orig[..k + 1], send, v) &&
              done + orig[k..] == (done + [orig[k]]) + orig[k + 1..]
    ensures !send(orig[k], v) ==>
              done == Live(orig[..k + 1], send, v) &&
              (done + orig[k..])[..|done|] + (done + orig[k..])[|done| + 1..] == done + orig[k + 1..]
  {
    LiveStep(orig, k, send, v);
    assert (done + orig[k..])[..|done|] == done;
    assert (done + orig[k..])[|done| + 1..] == orig[k + 1..];
    assert orig[k..] == [orig[k]] + orig[k + 1..];
  }

  /** A round tries every listener exactly once, in list order, with `v`:
      attempt `i` goes to the listener at index `i`. */
  lemma {:induction false} AttemptsAt(ls: seq<ContentId>, v: nat)
    ensures |Attempts(ls, v)| == |ls|
    ensures forall i :: 0 <= i < |ls| ==> Attempts(ls, v)[i] == (ls[i], v)
  {
    if ls != [] {
      AttemptsAt(ls[..|ls| - 1], v);
    }
  }

  /** Filtering a concatenation filters each part: the relative order of the
      survivors is the order they were registered in. */
  lemma {:induction false} LiveAppend(a: seq<ContentId>, b: seq<ContentId>, send: Send, v: nat)
    ensures Live(a + b, send, v) == Live(a, send, v) + Live(b, send, v)
  {
    if b == [] {
      assert a + b == a;
    } else {
      var b' := b[..|b| - 1];
      assert (a + b)[..|a + b| - 1] == a + b';
      assert (a + b)[|a + b| - 1] == b[|b| - 1];
      LiveAppend(a, b', send, v);
    }
  }

  /** A round shrinks the list by exactly the number of failed deliveries. */
  lemma {:induction false} LiveLength(ls: seq<ContentId>, send: Send, v: nat)
    ensures |Live(ls, send, v)| == |ls| - Failures(ls, send, v)
  {
    if ls != [] {
      LiveLength(ls[..|ls| - 1], send, v);
    }
  }

  /** A listener survives the round exactly when it was registered and a
      delivery to it succeeded; a dead listener is gone, every copy of it. */
  lemma {:induction false} LiveMembers(ls: seq<ContentId>, send: Send, v: nat, x: ContentId)
    ensures x in Live(ls, send, v) <==> x in ls && send(x, v)
  {
    if ls != [] {
      var p := ls[..|ls| - 1];
      LiveMembers(p, send, v, x);
      assert ls == p + [ls[|ls| - 1]];
    }
  }

  /** When every delivery succeeds the list is left as it was. */
  lemma {:induction false} LiveAllAlive(ls: seq<ContentId>, send: Send, v: nat)
    requires forall i :: 0 <= i < |ls| ==> send(ls[i], v)
    ensures Live(ls, send, v) == ls
    ensures Failures(ls, send, v) == 0
  {
    if ls != [] {
      LiveAllAlive(ls[..|ls| - 1], send, v);
      assert ls == ls[..|ls| - 1] + [ls[|ls| - 1]];
    }
  }
}
