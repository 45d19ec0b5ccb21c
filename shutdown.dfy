/** The shutdown stack of internal/service/container.go: an append-only list of teardown
    callbacks that Shutdown runs last-registered-first and then clears. The mutex that
    guards the list is left out; every method is one atomic step. */
module Shutdown {
  import opened Basics
  import opened Clients

  /** The teardown callbacks the providers register, identified by what they release.
      Each swallows the error of its release, so invoking one cannot fail. */
  datatype Callback = DisconnectMongo(client: MongoClient) | SyncLogger(logger: ZapLogger)

  /** The elements of `s`, last first. */
  function Reversed<T>(s: seq<T>): seq<T>
  {
    if s == [] then [] else Reversed(s[1..]) + [s[0]]
  }

  /** Reversing keeps every element, each as often as before: every registered callback
      is invoked exactly once. */
  lemma {:induction false} ReversedMultiset<T>(s: seq<T>)
    ensures multiset(Reversed(s)) == multiset(s)
  {
    if s != [] {
      ReversedMultiset(s[1..]);
      assert s == [s[0]] + s[1..];
    }
  }

  /** Position k of the reversed sequence holds the k-th element counted from the end. */
  lemma {:induction false} ReversedIndex<T>(s: seq<T>, k: nat)
    requires k < |s|
    ensures |Reversed(s)| == |s|
    ensures Reversed(s)[k] == s[|s| - 1 - k]
  {
    if k < |s| - 1 {
      ReversedIndex(s[1..], k);
    } else {
      ReversedLength(s[1..]);
    }
  }

  /** Registrations [A] and [A, B] are unwound as [A] and [B, A]. */
  lemma ReversedShort<T>(x: T, y: T)
    ensures Reversed([x]) == [x]
    ensures Reversed([x, y]) == [y, x]
  {
    assert [x][1..] == [];
    assert [x, y][1..] == [y] && [y][1..] == [];
  }

  lemma {:induction false} ReversedLength<T>(s: seq<T>)
    ensures |Reversed(s)| == |s|
  {
    if s != [] {
      ReversedLength(s[1..]);
    }
  }

  /** ShutdownHandler: the registered callbacks and, as a ghost trace, every callback
      invoked so far. */
  class ShutdownHandler {
    var onShutdown: seq<Callback>
    ghost var invoked: seq<Callback>

    constructor ()
      ensures onShutdown == [] && invoked == []
    {
      onShutdown := [];
      invoked := [];
    }

    /** RegisterOnShutdown: appends the callback. A nil callback is a wiring bug that the
        source turns into a panic; here no caller may pass one. */
    method RegisterOnShutdown(fn: Option<Callback>)
      requires fn.Some?
      modifies this
      ensures onShutdown == old(onShutdown) + [fn.value]
      ensures invoked == old(invoked)
    {
      onShutdown := onShutdown + [fn.value];
    }

    /** Shutdown: invokes every registered callback once, last registered first, then
        forgets them all, so that calling it again invokes nothing. */
    method Shutdown()
      modifies this
      ensures onShutdown == []
      ensures invoked == old(invoked) + Reversed(old(onShutdown))
      ensures multiset(invoked) == multiset(old(invoked)) + multiset(old(onShutdown))
    {
      var i := |onShutdown| - 1;
      while i >= 0
        invariant -1 <= i < |onShutdown|
        invariant onShutdown == old(onShutdown)
        invariant invoked == old(invoked) + Reversed(onShutdown[i + 1..])
      {
        assert onShutdown[i..][1..] == onShutdown[i + 1..];
        invoked := invoked + [onShutdown[i]];
        i := i - 1;
      }
      assert onShutdown[0..] == onShutdown;
      ReversedMultiset(onShutdown);
      onShutdown := [];
    }
  }

  /** Shutdown called twice: the second call finds nothing to invoke, so the trace is that of
      a single call. */
  method ShutdownTwice(h: ShutdownHandler)
    modifies h
    ensures h.onShutdown == []
    ensures h.invoked == old(h.invoked) + Reversed(old(h.onShutdown))
  {
    h.Shutdown();
    h.Shutdown();
  }
}
