/**
 * The front end's observer registry: a JavaScript `Set` of callbacks, each
 * standing here for an opaque id, and the record of which callback was
 * invoked with what.
 */
module Subscribers {
  import opened Seqs
  import opened PriceRecord

  type SubscriberId = nat

  /** One invocation `callback(symbol, record)`. */
  datatype Notification = Notification(subscriber: SubscriberId, symbol: string, record: Record)

  /** `set.add(x)`: a new member goes last; a present member keeps its place. */
  function Add(s: seq<SubscriberId>, x: SubscriberId): (r: seq<SubscriberId>)
    ensures forall y :: y in r <==> y in s || y == x
    ensures x in s ==> r == s
    ensures x !in s ==> r == s + [x]
    ensures Distinct(s) ==> Distinct(r)
  {
    if x in s then s else s + [x]
  }

  /** `set.delete(x)`: the other members keep their order (see `RemoveKeepsOrder`). */
  function Remove(s: seq<SubscriberId>, x: SubscriberId): (r: seq<SubscriberId>)
    ensures forall y :: y in r <==> y in s && y != x
    ensures x !in s ==> r == s
    ensures Distinct(s) ==> Distinct(r)
  {
    if s == [] then []
    else
      var rest := Remove(s[1..], x);
      if s[0] == x then
        assert Distinct(s) ==> Distinct(s[1..]) by {
          if Distinct(s) { DistinctTail(s); }
        }
        rest
      else
        assert Distinct(s) ==> Distinct([s[0]] + rest) by {
          if Distinct(s) { DistinctTail(s); DistinctCons(s[0], rest); }
        }
        [s[0]] + rest
  }

  /** Deleting the member at position `k` closes the gap: the others keep their order. */
  lemma {:induction false} RemoveKeepsOrder(s: seq<SubscriberId>, x: SubscriberId, k: nat)
    requires Distinct(s)
    requires k < |s| && s[k] == x
    ensures Remove(s, x) == s[..k] + s[k + 1..]
  {
    DistinctTail(s);
    var tail := s[1..];
    if k == 0 {
      assert x !in tail;
      assert Remove(s, x) == Remove(tail, x) == tail;
      assert s[..0] + s[1..] == tail;
    } else {
      assert s[0] == s[..k][0] && x == s[k];
      assert s[0] != x;
      assert tail[k - 1] == x;
      RemoveKeepsOrder(tail, x, k - 1);
      assert Remove(s, x) == [s[0]] + Remove(tail, x);
      assert s[..k] == [s[0]] + tail[..k - 1];
      assert s[k + 1..] == tail[k..];
    }
  }

  /** One pass of `forEach` over the subscribers, in their order. */
  function Fanout(subs: seq<SubscriberId>, symbol: string, record: Record): seq<Notification>
  {
    if subs == [] then []
    else [Notification(subs[0], symbol, record)] + Fanout(subs[1..], symbol, record)
  }

  lemma {:induction false} FanoutAppend(a: seq<SubscriberId>, b: seq<SubscriberId>, symbol: string, record: Record)
    ensures Fanout(a + b, symbol, record) == Fanout(a, symbol, record) + Fanout(b, symbol, record)
  {
    if a == [] {
      assert a + b == b;
    } else {
      assert (a + b)[1..] == a[1..] + b;
      FanoutAppend(a[1..], b, symbol, record);
    }
  }

  /** The pass calls the subscribers in registration order, each with the same symbol and record. */
  lemma {:induction false} FanoutInOrder(subs: seq<SubscriberId>, symbol: string, record: Record)
    ensures |Fanout(subs, symbol, record)| == |subs|
    ensures forall i :: 0 <= i < |subs| ==> Fanout(subs, symbol, record)[i] == Notification(subs[i], symbol, record)
  {
    if subs != [] {
      FanoutInOrder(subs[1..], symbol, record);
    }
  }

  /** How many of `log`'s invocations went to `x`. */
  function CallsTo(log: seq<Notification>, x: SubscriberId): nat
  {
    if log == [] then 0
    else (if log[0].subscriber == x then 1 else 0) + CallsTo(log[1..], x)
  }

  lemma {:induction false} CallsToAppend(a: seq<Notification>, b: seq<Notification>, x: SubscriberId)
    ensures CallsTo(a + b, x) == CallsTo(a, x) + CallsTo(b, x)
  {
    if a == [] {
      assert a + b == b;
    } else {
      assert (a + b)[1..] == a[1..] + b;
      CallsToAppend(a[1..], b, x);
    }
  }

  /** Each registered callback is invoked exactly once per pass, and no other callback is. */
  lemma {:induction false} FanoutCallsEachOnce(subs: seq<SubscriberId>, symbol: string, record: Record, x: SubscriberId)
    requires Distinct(subs)
    ensures CallsTo(Fanout(subs, symbol, record), x) == if x in subs then 1 else 0
  {
    if subs != [] {
      DistinctTail(subs);
      FanoutCallsEachOnce(subs[1..], symbol, record, x);
    }
  }

  /** However often a callback was added, once deleted it is not invoked. */
  lemma RemovedIsNotCalled(subs: seq<SubscriberId>, x: SubscriberId, y: SubscriberId, symbol: string, record: Record)
    requires Distinct(subs)
    ensures CallsTo(Fanout(Remove(Add(Add(subs, x), x), x), symbol, record), x) == 0
    ensures CallsTo(Fanout(Add(Add(subs, y), y), symbol, record), y) == 1
  {
    FanoutCallsEachOnce(Remove(Add(Add(subs, x), x), x), symbol, record, x);
    FanoutCallsEachOnce(Add(Add(subs, y), y), symbol, record, y);
  }
}
