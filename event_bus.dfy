/** The publish/subscribe bus of js/utils/eventBus.js: a table from event name
    to the ordered list of subscribed callbacks. Callbacks are opaque ids. */
module Bus {
  import opened Common

  type CallbackId = int
  type Table = map<string, seq<CallbackId>>

  /** No event keeps an empty list: `unsubscribe` deletes a key whose list
      becomes empty, and `subscribe` never leaves one. */
  ghost predicate NoEmptyLists(t: Table)
  {
    forall e :: e in t ==> t[e] != []
  }

  /** `list.filter(cb => cb !== callback)`. */
  function Without(s: seq<CallbackId>, cb: CallbackId): (r: seq<CallbackId>)
    ensures |r| <= |s|
  {
    if s == [] then []
    else (if s[0] == cb then [] else [s[0]]) + Without(s[1..], cb)
  }

  /** Filtering removes every occurrence of `cb`, keeps every other callback,
      and leaves a list without `cb` as it was. */
  lemma {:induction false} WithoutContents(s: seq<CallbackId>, cb: CallbackId)
    ensures forall x :: x in Without(s, cb) <==> x in s && x != cb
    ensures cb !in s ==> Without(s, cb) == s
    decreases |s|
  {
    if s != [] {
      WithoutContents(s[1..], cb);
      assert s == [s[0]] + s[1..];
    }
  }

  /** Every index moved one place on. */
  function Shifted(t: seq<int>): (r: seq<int>)
    ensures |r| == |t| && forall i :: 0 <= i < |t| ==> r[i] == t[i] + 1
  {
    seq(|t|, i requires 0 <= i < |t| => t[i] + 1)
  }

  /** The positions of `s` that do not hold `cb`, in ascending order. */
  ghost function KeptIndices(s: seq<CallbackId>, cb: CallbackId): seq<int>
    decreases |s|
  {
    if s == [] then []
    else (if s[0] == cb then [] else [0]) + Shifted(KeptIndices(s[1..], cb))
  }

  ghost predicate Ascending(idx: seq<int>)
  {
    forall i, j :: 0 <= i < j < |idx| ==> idx[i] < idx[j]
  }

  /** Each kept position is in range, and filtering yields the callbacks at
      those positions. */
  lemma {:induction false} KeptIndicesPick(s: seq<CallbackId>, cb: CallbackId)
    ensures var r := Without(s, cb); var idx := KeptIndices(s, cb);
      |idx| == |r| && forall i :: 0 <= i < |idx| ==> 0 <= idx[i] < |s| && r[i] == s[idx[i]]
    decreases |s|
  {
    if s != [] {
      KeptIndicesPick(s[1..], cb);
      var rest, tail := Without(s[1..], cb), KeptIndices(s[1..], cb);
      var r, idx := Without(s, cb), KeptIndices(s, cb);
      var h := if s[0] == cb then 0 else 1;
      assert r == (if s[0] == cb then [] else [s[0]]) + rest;
      assert idx == (if s[0] == cb then [] else [0]) + Shifted(tail);
      forall i | 0 <= i < |idx|
        ensures 0 <= idx[i] < |s| && r[i] == s[idx[i]]
      {
        if i >= h {
          var m := i - h;
          assert idx[i] == tail[m] + 1 && r[i] == rest[m];
          assert s[1..][tail[m]] == s[tail[m] + 1];
        }
      }
    }
  }

  /** The kept positions ascend and are at least 0. */
  lemma {:induction false} KeptIndicesAscend(s: seq<CallbackId>, cb: CallbackId)
    ensures Ascending(KeptIndices(s, cb))
    ensures forall i :: 0 <= i < |KeptIndices(s, cb)| ==> KeptIndices(s, cb)[i] >= 0
    decreases |s|
  {
    if s != [] {
      KeptIndicesAscend(s[1..], cb);
      var sh := Shifted(KeptIndices(s[1..], cb));
      assert Ascending(sh);
      if s[0] != cb {
        var idx := KeptIndices(s, cb);
        assert idx == [0] + sh;
        assert forall i :: 0 < i < |idx| ==> idx[i] == sh[i - 1] >= 1;
      }
    }
  }

  /** Every position that does not hold `cb` is kept. */
  lemma {:induction false} KeptIndicesComplete(s: seq<CallbackId>, cb: CallbackId)
    ensures forall k :: 0 <= k < |s| && s[k] != cb ==> k in KeptIndices(s, cb)
    decreases |s|
  {
    if s != [] {
      KeptIndicesComplete(s[1..], cb);
      var tail := KeptIndices(s[1..], cb);
      var sh := Shifted(tail);
      forall k | 0 < k < |s| && s[k] != cb
        ensures k in sh
      {
        assert s[1..][k - 1] == s[k];
        var m :| 0 <= m < |tail| && tail[m] == k - 1;
        assert sh[m] == k;
      }
    }
  }

  /** Filtering is the subsequence of `s` at exactly the positions that do not
      hold `cb`: the callbacks that stay keep their relative order. */
  lemma WithoutKeepsOrder(s: seq<CallbackId>, cb: CallbackId)
    ensures var r := Without(s, cb); var idx := KeptIndices(s, cb);
      |idx| == |r| && Ascending(idx)
      && (forall i :: 0 <= i < |idx| ==> 0 <= idx[i] < |s| && r[i] == s[idx[i]])
      && (forall k :: 0 <= k < |s| && s[k] != cb ==> k in idx)
  {
    KeptIndicesPick(s, cb);
    KeptIndicesAscend(s, cb);
    KeptIndicesComplete(s, cb);
  }

  /** `subscribe(e, cb)` on the table: the list of `e` is created if absent and
      `cb` goes at its end. */
  function SubscribeTable(t: Table, e: string, cb: CallbackId): (r: Table)
    ensures r.Keys == t.Keys + {e}
    ensures r[e] == (if e in t then t[e] else []) + [cb]
    ensures forall f :: f in t && f != e ==> r[f] == t[f]
  {
    t[e := (if e in t then t[e] else []) + [cb]]
  }

  /** The returned unsubscribe closure on the table: every occurrence of `cb`
      leaves `e`'s list, and the key goes when the list is left empty. */
  function UnsubscribeTable(t: Table, e: string, cb: CallbackId): (r: Table)
    requires e in t
    ensures forall f :: f in t && f != e ==> f in r && r[f] == t[f]
    ensures r.Keys <= t.Keys
  {
    var rest := Without(t[e], cb);
    if |rest| == 0 then t - {e} else t[e := rest]
  }

  /** `clear(e)`: a truthy name removes only its key; otherwise the table empties. */
  function ClearTable(t: Table, e: Option<string>): (r: Table)
    ensures Truthy(e) ==> r.Keys == t.Keys - {e.value} && forall f :: f in r ==> r[f] == t[f]
    ensures !Truthy(e) ==> r == map[]
  {
    if Truthy(e) then t - {e.value} else map[]
  }

  /** After unsubscribing, `cb` is on no list of `e`, the others on it stay,
      and no empty list is left behind. */
  lemma UnsubscribeRemoves(t: Table, e: string, cb: CallbackId)
    requires e in t && NoEmptyLists(t)
    ensures NoEmptyLists(UnsubscribeTable(t, e, cb))
    ensures e in UnsubscribeTable(t, e, cb) ==>
      forall x :: x in UnsubscribeTable(t, e, cb)[e] <==> x in t[e] && x != cb
    ensures e !in UnsubscribeTable(t, e, cb) <==> forall x :: x in t[e] ==> x == cb
  {
    WithoutContents(t[e], cb);
    var rest := Without(t[e], cb);
    if rest != [] {
      assert rest[0] in rest;
    } else {
      assert forall x :: x in t[e] ==> x == cb;
    }
  }

  /** Subscribing keeps the table free of empty lists. */
  lemma SubscribeKeepsNoEmptyLists(t: Table, e: string, cb: CallbackId)
    requires NoEmptyLists(t)
    ensures NoEmptyLists(SubscribeTable(t, e, cb))
  {
  }

  /** Unsubscribing a callback that was not yet on `e`'s list undoes its
      subscription exactly, on a table without empty lists. */
  lemma SubscribeUnsubscribe(t: Table, e: string, cb: CallbackId)
    requires NoEmptyLists(t)
    requires e !in t || cb !in t[e]
    ensures UnsubscribeTable(SubscribeTable(t, e, cb), e, cb) == t
  {
    var s := if e in t then t[e] else [];
    WithoutContents(s + [cb], cb);
    WithoutContents(s, cb);
    var rest := Without(s + [cb], cb);
    assert forall x :: x in rest <==> x in s;
    WithoutAppend(s, cb);
    if e in t {
      assert rest == s;
    } else {
      assert rest == [];
    }
  }

  /** Filtering `s + [cb]` by `cb` gives the filtered `s`. */
  lemma {:induction false} WithoutAppend(s: seq<CallbackId>, cb: CallbackId)
    ensures Without(s + [cb], cb) == Without(s, cb)
    decreases |s|
  {
    if s == [] {
      assert Without([cb], cb) == [] + Without([], cb);
    } else {
      assert (s + [cb])[1..] == s[1..] + [cb];
      WithoutAppend(s[1..], cb);
    }
  }

  /** The callbacks among `invoked` whose call throws, in call order. */
  function Failures(invoked: seq<CallbackId>, throwing: set<CallbackId>): (r: seq<CallbackId>)
    ensures forall x :: x in r <==> x in invoked && x in throwing
    ensures |r| <= |invoked|
  {
    if invoked == [] then []
    else Failures(invoked[..|invoked| - 1], throwing)
         + (if invoked[|invoked| - 1] in throwing then [invoked[|invoked| - 1]] else [])
  }

  /** The function `subscribe` returns: unsubscribes `callback` from `event`. */
  datatype Unsubscriber = Unsubscriber(event: string, callback: CallbackId)

  class EventBus {
    var events: Table

    ghost predicate Valid()
      reads this
    {
      NoEmptyLists(events)
    }

    /** `new EventBus()`: no subscriptions. */
    constructor ()
      ensures Valid() && events == map[]
    {
      events := map[];
    }

    /** `subscribe(event, callback)`: appends the callback to the event's list
        and returns its unsubscribe closure. */
    method Subscribe(event: string, callback: CallbackId) returns (unsubscribe: Unsubscriber)
      requires Valid()
      modifies this
      ensures Valid()
      ensures events == SubscribeTable(old(events), event, callback)
      ensures unsubscribe == Unsubscriber(event, callback)
    {
      if event !in events {
        events := events[event := []];
      }
      events := events[event := events[event] + [callback]];
      unsubscribe := Unsubscriber(event, callback);
    }

    /** Calling an unsubscribe closure. When its event has no key (after
        `clear`, or a second call that already removed the key) the source
        throws reading the missing list, so that is excluded here. */
    method Unsubscribe(u: Unsubscriber)
      requires Valid() && u.event in events
      modifies this
      ensures Valid()
      ensures events == UnsubscribeTable(old(events), u.event, u.callback)
    {
      UnsubscribeRemoves(events, u.event, u.callback);
      events := events[u.event := Without(events[u.event], u.callback)];
      if |events[u.event]| == 0 {
        events := events - {u.event};
      }
    }

    /** `publish(event, data)`: calls every callback on the event's list in
        subscription order; a callback in `throwing` throws, which is caught,
        and the remaining callbacks still run. Returns the callbacks called and
        the ones that threw; the table is not changed. */
    method Publish(event: string, throwing: set<CallbackId>) returns (invoked: seq<CallbackId>, failed: seq<CallbackId>)
      ensures event !in events ==> invoked == [] && failed == []
      ensures event in events ==> invoked == events[event]
      ensures failed == Failures(invoked, throwing)
    {
      invoked, failed := [], [];
      if event !in events {
        return;
      }
      var callbacks := events[event];
      for i := 0 to |callbacks|
        invariant invoked == callbacks[..i]
        invariant failed == Failures(invoked, throwing)
      {
        assert callbacks[..i + 1][..i] == callbacks[..i];
        invoked := invoked + [callbacks[i]];
        if callbacks[i] in throwing {
          failed := failed + [callbacks[i]];
        }
      }
      assert callbacks[..|callbacks|] == callbacks;
    }

    /** `clear(event)`. */
    method Clear(event: Option<string>)
      requires Valid()
      modifies this
      ensures Valid()
      ensures events == ClearTable(old(events), event)
    {
      if Truthy(event) {
        events := events - {event.value};
      } else {
        events := map[];
      }
    }
  }

  /** Subscribing then publishing calls the new callback last; a throwing
      first callback does not keep the second from running; unsubscribing the
      second restores the earlier list, so a later publish calls the same
      callbacks as before its subscription. */
  method SubscribePublishUnsubscribe() returns (first: seq<CallbackId>, second: seq<CallbackId>, failed: seq<CallbackId>, after: seq<CallbackId>)
    ensures first == [1] && second == [1, 2] && after == [1]
    ensures failed == [1]
  {
    var bus := new EventBus();
    var u1 := bus.Subscribe("speakerChange", 1);
    var none;
    first, none := bus.Publish("speakerChange", {});
    var u2 := bus.Subscribe("speakerChange", 2);
    second, failed := bus.Publish("speakerChange", {1});
    assert [1, 2][1..] == [2] && [2][1..] == [];
    assert Without([1, 2], 2) == [1];
    bus.Unsubscribe(u2);
    after, none := bus.Publish("speakerChange", {});
  }
}
