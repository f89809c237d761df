/** The publish/subscribe emitter of app/models/events.js: a map from an event
    name to the ordered list of handlers subscribed to it. Handlers are
    opaque ids; a call that throws is one in `faulty`, so whether a handler
    throws may depend on the arguments it is called with. */
module Events {
  import opened Json

  type HandlerId = nat

  /** One call `handler(...args)`. */
  datatype Invocation<A> = Invocation(handler: HandlerId, args: A)

  /** What one `raise` did: the calls made, in order, and the handler whose
      exception escaped to the caller, if any. */
  datatype Raised<A> = Raised(calls: seq<Invocation<A>>, thrown: Option<HandlerId>)

  /** `calls` made before the raise whose outcome is `r`. */
  function Prepend<A>(calls: seq<Invocation<A>>, r: Raised<A>): Raised<A>
  {
    Raised(calls + r.calls, r.thrown)
  }

  /** The handlers registered for `e`; a missing entry has none. */
  function HandlersIn(m: map<string, seq<HandlerId>>, e: string): seq<HandlerId>
  {
    if e in m then m[e] else []
  }

  /** The map after `on(e, h)`. */
  function Register(m: map<string, seq<HandlerId>>, e: string, h: HandlerId): (r: map<string, seq<HandlerId>>)
    ensures HandlersIn(r, e) == HandlersIn(m, e) + [h]
    ensures forall e' :: e' != e ==> HandlersIn(r, e') == HandlersIn(m, e')
    ensures r.Keys == m.Keys + {e}
  {
    m[e := HandlersIn(m, e) + [h]]
  }

  /** The `forEach` of `raise`: every handler in order with the same
      arguments, stopping after the first one that throws. */
  function Dispatch<A(==)>(hs: seq<HandlerId>, args: A, faulty: set<Invocation<A>>): Raised<A>
    decreases |hs|
  {
    if hs == [] then Raised([], None)
    else if Invocation(hs[0], args) in faulty then Raised([Invocation(hs[0], args)], Some(hs[0]))
    else Prepend([Invocation(hs[0], args)], Dispatch(hs[1..], args, faulty))
  }

  /** What one raise does: it calls a prefix of the handlers, in
      registration order and each with the same arguments; it stops right
      after the first handler that throws, whose exception escapes; when none
      throws, every registered handler is called. */
  lemma {:induction false} DispatchShape<A>(hs: seq<HandlerId>, args: A, faulty: set<Invocation<A>>)
    ensures var r := Dispatch(hs, args, faulty);
      && |r.calls| <= |hs|
      && (forall i :: 0 <= i < |r.calls| ==> r.calls[i] == Invocation(hs[i], args))
      && (forall i :: 0 <= i < |r.calls| && Invocation(hs[i], args) in faulty ==> i == |r.calls| - 1 && r.thrown == Some(hs[i]))
      && (r.thrown.None? ==> |r.calls| == |hs|)
      && (r.thrown.Some? ==> |r.calls| > 0 && hs[|r.calls| - 1] == r.thrown.value && Invocation(r.thrown.value, args) in faulty)
    decreases |hs|
  {
    if hs != [] && Invocation(hs[0], args) !in faulty {
      DispatchShape(hs[1..], args, faulty);
    }
  }

  /** One `raise` per element of `argss`, in order (the `forEach` of the
      model's `clear*`); an escaping exception ends the loop. */
  function DispatchEach<A(==)>(hs: seq<HandlerId>, argss: seq<A>, faulty: set<Invocation<A>>): Raised<A>
    decreases |argss|
  {
    if argss == [] then Raised([], None)
    else
      var first := Dispatch(hs, argss[0], faulty);
      if first.thrown.Some? then first
      else Prepend(first.calls, DispatchEach(hs, argss[1..], faulty))
  }

  /** Extending the loop by one more element. */
  lemma {:induction false} DispatchEachSnoc<A>(hs: seq<HandlerId>, argss: seq<A>, a: A, faulty: set<Invocation<A>>)
    requires DispatchEach(hs, argss, faulty).thrown.None?
    ensures DispatchEach(hs, argss + [a], faulty)
         == Prepend(DispatchEach(hs, argss, faulty).calls, Dispatch(hs, a, faulty))
  {
    if argss == [] {
      assert [a][1..] == [];
    } else {
      var first := Dispatch(hs, argss[0], faulty);
      var rest := DispatchEach(hs, argss[1..], faulty);
      var last := Dispatch(hs, a, faulty);
      assert first.thrown.None?;
      assert rest.thrown.None?;
      DispatchEachSnoc(hs, argss[1..], a, faulty);
      var longer := argss + [a];
      assert longer[0] == argss[0] && longer[1..] == argss[1..] + [a];
      calc {
        DispatchEach(hs, longer, faulty);
        Prepend(first.calls, DispatchEach(hs, argss[1..] + [a], faulty));
        Prepend(first.calls, Prepend(rest.calls, last));
        { assert first.calls + (rest.calls + last.calls) == (first.calls + rest.calls) + last.calls; }
        Prepend(first.calls + rest.calls, last);
        Prepend(DispatchEach(hs, argss, faulty).calls, last);
      }
    }
  }

  /** Once a raise of the loop throws, the later elements are never raised. */
  lemma {:induction false} DispatchEachStops<A>(hs: seq<HandlerId>, argss: seq<A>, i: nat, faulty: set<Invocation<A>>)
    requires i < |argss|
    requires DispatchEach(hs, argss[..i + 1], faulty).thrown.Some?
    ensures DispatchEach(hs, argss, faulty) == DispatchEach(hs, argss[..i + 1], faulty)
  {
    var first := Dispatch(hs, argss[0], faulty);
    assert argss[..i + 1][0] == argss[0];
    if first.thrown.None? {
      if i == 0 {
        assert false;
      }
      assert argss[..i + 1][1..] == argss[1..][..i];
      DispatchEachStops(hs, argss[1..], i - 1, faulty);
    }
  }

  /** Element `k` is the first of the loop whose raise throws. */
  ghost predicate FirstThrowAt<A>(hs: seq<HandlerId>, argss: seq<A>, k: nat, faulty: set<Invocation<A>>)
  {
    && k < |argss|
    && (forall j :: 0 <= j < k ==> Dispatch(hs, argss[j], faulty).thrown.None?)
    && Dispatch(hs, argss[k], faulty).thrown.Some?
  }

  /** The loop stops at the first element whose raise throws: the elements
      before it are raised in full and throw nothing, its own raise ends with
      the exception, which escapes, and no later element is raised. */
  lemma {:induction false} DispatchEachFirstThrow<A>(hs: seq<HandlerId>, argss: seq<A>, k: nat, faulty: set<Invocation<A>>)
    requires FirstThrowAt(hs, argss, k, faulty)
    ensures DispatchEach(hs, argss[..k], faulty).thrown.None?
    ensures DispatchEach(hs, argss, faulty)
         == Prepend(DispatchEach(hs, argss[..k], faulty).calls, Dispatch(hs, argss[k], faulty))
    ensures DispatchEach(hs, argss, faulty).thrown == Dispatch(hs, argss[k], faulty).thrown
  {
    if k == 0 {
      assert argss[..0] == [];
    } else {
      var first := Dispatch(hs, argss[0], faulty);
      assert first.thrown.None?;
      var tail := argss[1..];
      assert FirstThrowAt(hs, tail, k - 1, faulty) by {
        forall j | 0 <= j < k - 1
          ensures Dispatch(hs, tail[j], faulty).thrown.None?
        {
          assert tail[j] == argss[j + 1];
        }
        assert tail[k - 1] == argss[k];
      }
      DispatchEachFirstThrow(hs, tail, k - 1, faulty);
      assert argss[..k][0] == argss[0] && argss[..k][1..] == tail[..k - 1];
      var before := DispatchEach(hs, tail[..k - 1], faulty);
      assert DispatchEach(hs, argss[..k], faulty) == Prepend(first.calls, before);
      assert first.calls + (before.calls + Dispatch(hs, argss[k], faulty).calls)
          == (first.calls + before.calls) + Dispatch(hs, argss[k], faulty).calls;
    }
  }

  /** When no element's raise throws, the loop throws nothing. */
  lemma {:induction false} DispatchEachNoThrow<A>(hs: seq<HandlerId>, argss: seq<A>, faulty: set<Invocation<A>>)
    requires forall j :: 0 <= j < |argss| ==> Dispatch(hs, argss[j], faulty).thrown.None?
    ensures DispatchEach(hs, argss, faulty).thrown.None?
  {
    if argss != [] {
      assert Dispatch(hs, argss[0], faulty).thrown.None?;
      forall j | 0 <= j < |argss[1..]|
        ensures Dispatch(hs, argss[1..][j], faulty).thrown.None?
      {
        assert argss[1..][j] == argss[j + 1];
      }
      DispatchEachNoThrow(hs, argss[1..], faulty);
    }
  }

  /** A handler can throw on a later element only: with `h` throwing for `b`
      and not for `a`, the loop over `[a, b, c]` raises `a` in full, then `b`,
      whose exception ends it before `c`. */
  lemma ThrowOnLaterElement<A>(h: HandlerId, a: A, b: A, c: A)
    requires a != b
    ensures DispatchEach([h], [a, b, c], {Invocation(h, b)})
         == Raised([Invocation(h, a), Invocation(h, b)], Some(h))
  {
    var faulty := {Invocation(h, b)};
    assert [h][1..] == [];
    assert Dispatch([h], a, faulty) == Raised([Invocation(h, a)], None);
    assert Dispatch([h], b, faulty) == Raised([Invocation(h, b)], Some(h));
    assert [a, b, c][1..] == [b, c];
  }

  /** With no throwing handler every handler is called, once per registration. */
  lemma {:induction false} DispatchAllCalled<A>(hs: seq<HandlerId>, args: A)
    ensures Dispatch(hs, args, {}).thrown.None?
    ensures |Dispatch(hs, args, {}).calls| == |hs|
  {
    if hs != [] {
      DispatchAllCalled(hs[1..], args);
    }
  }

  /** A handler registered `n` times is called `n` times by one raise. */
  lemma {:induction false} DispatchCountsDuplicates<A>(hs: seq<HandlerId>, args: A, h: HandlerId)
    ensures multiset(Dispatch(hs, args, {}).calls)[Invocation(h, args)] == multiset(hs)[h]
  {
    if hs != [] {
      DispatchCountsDuplicates(hs[1..], args, h);
      assert hs == [hs[0]] + hs[1..];
    }
  }

  /** With no throwing handler, `raise` once per element calls every
      handler for every element: `|hs|` calls per element. */
  lemma {:induction false} DispatchEachCount<A>(hs: seq<HandlerId>, argss: seq<A>)
    ensures DispatchEach(hs, argss, {}).thrown.None?
    ensures |DispatchEach(hs, argss, {}).calls| == |hs| * |argss|
  {
    if argss != [] {
      DispatchAllCalled(hs, argss[0]);
      DispatchEachCount(hs, argss[1..]);
      assert |hs| * |argss| == |hs| + |hs| * |argss[1..]|;
    }
  }

  /** A single subscriber sees one call per element, in element order. */
  lemma {:induction false} DispatchEachSingle<A>(h: HandlerId, argss: seq<A>)
    ensures DispatchEach([h], argss, {}).thrown.None?
    ensures |DispatchEach([h], argss, {}).calls| == |argss|
    ensures forall k :: 0 <= k < |argss| ==> DispatchEach([h], argss, {}).calls[k] == Invocation(h, argss[k])
  {
    if argss != [] {
      DispatchEachSingle(h, argss[1..]);
      var none: set<Invocation<A>> := {};
      assert [h][1..] == [];
      assert Dispatch([], argss[0], none) == Raised([], None);
      assert Dispatch([h], argss[0], none) == Raised([Invocation(h, argss[0])], None);
    }
  }

  /** Two non-throwing subscribers are called in subscription order. */
  lemma DispatchTwo<A>(h1: HandlerId, h2: HandlerId, args: A)
    ensures Dispatch([h1, h2], args, {}) == Raised([Invocation(h1, args), Invocation(h2, args)], None)
  {
    var none: set<Invocation<A>> := {};
    assert [h1, h2][1..] == [h2];
    assert [h2][1..] == [];
    assert Dispatch([h2], args, none) == Raised([Invocation(h2, args)], None);
  }

  class EventEmitter<A(==)> {
    /** Event name to the handlers subscribed to it, in subscription order. */
    var eventMap: map<string, seq<HandlerId>>

    /** A fresh emitter has no handlers. */
    constructor ()
      ensures eventMap == map[]
    {
      eventMap := map[];
    }

    function HandlersOf(e: string): seq<HandlerId>
      reads this
    {
      HandlersIn(eventMap, e)
    }

    /** `on(e, h)`: create the list if absent, then push `h`; duplicates are
        kept and there is no way to remove one. */
    method On(e: string, h: HandlerId)
      modifies this
      ensures eventMap == Register(old(eventMap), e, h)
    {
      if e !in eventMap {
        eventMap := eventMap[e := []];
      }
      eventMap := eventMap[e := eventMap[e] + [h]];
    }

    /** `raise(e, ...args)`: call the handlers of `e` in order with the same
        arguments. The map is not changed (no `modifies`). */
    method Raise(e: string, args: A, faulty: set<Invocation<A>>) returns (r: Raised<A>)
      ensures r == Dispatch(HandlersOf(e), args, faulty)
    {
      var hs := HandlersOf(e);
      var calls: seq<Invocation<A>> := [];
      var i := 0;
      while i < |hs|
        invariant 0 <= i <= |hs|
        invariant Dispatch(hs, args, faulty) == Prepend(calls, Dispatch(hs[i..], args, faulty))
      {
        assert hs[i..][0] == hs[i] && hs[i..][1..] == hs[i + 1..];
        calls := calls + [Invocation(hs[i], args)];
        if Invocation(hs[i], args) in faulty {
          return Raised(calls, Some(hs[i]));
        }
        i := i + 1;
      }
      return Raised(calls, None);
    }
  }

  /** The first subscription to an event creates its list with that one
      handler. */
  lemma RegisterFresh(m: map<string, seq<HandlerId>>, e: string, h: HandlerId)
    requires e !in m
    ensures Register(m, e, h) == m[e := [h]]
  {
    assert HandlersIn(m, e) + [h] == [h];
  }

  /** Two subscriptions of the same callback make one raise call it twice. */
  lemma SubscribedTwiceCalledTwice<A>(m: map<string, seq<HandlerId>>, e: string, h: HandlerId, args: A)
    requires e !in m
    ensures Dispatch(HandlersIn(Register(Register(m, e, h), e, h), e), args, {}).calls
         == [Invocation(h, args), Invocation(h, args)]
  {
    var hs := HandlersIn(Register(Register(m, e, h), e, h), e);
    assert hs == [h, h];
    DispatchAllCalled(hs, args);
  }

  /** `raise` of an event nobody subscribed to calls nothing and throws
      nothing. */
  lemma RaiseUnsubscribed<A>(m: map<string, seq<HandlerId>>, e: string, args: A, faulty: set<Invocation<A>>)
    requires e !in m
    ensures Dispatch(HandlersIn(m, e), args, faulty) == Raised([], None)
  {
  }

  /** Registering only ever extends a handler list. */
  lemma RegisterOnlyGrows(m: map<string, seq<HandlerId>>, e: string, h: HandlerId, e': string)
    ensures HandlersIn(m, e') <= HandlersIn(Register(m, e, h), e')
  {
  }
}
