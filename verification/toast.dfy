/**
 * The notification queue (src/app/core/services/toast.service.ts): a list of
 * toasts with ids drawn from a counter that only goes up, and one pending
 * 5-second expiry per toast ever added. The expiries are modelled as an
 * explicit event (`ExpiryFires`) rather than as time.
 */
module Toasts {

  datatype ToastKind = Success | Error | Info

  /** One toast; `kind` is the source's `type` field. */
  datatype Toast = Toast(message: string, kind: ToastKind, id: nat)

  /** Ids strictly increase along the list (so they are also unique). */
  ghost predicate IdsIncreasing(ts: seq<Toast>) {
    forall i, j :: 0 <= i < j < |ts| ==> ts[i].id < ts[j].id
  }

  ghost predicate Increasing(ids: seq<nat>) {
    forall i, j :: 0 <= i < j < |ids| ==> ids[i] < ids[j]
  }

  /** `toasts.filter((t) => t.id !== id)`. */
  function RemoveId(ts: seq<Toast>, id: nat): (r: seq<Toast>)
    ensures |r| <= |ts|
    ensures forall t :: t in r <==> t in ts && t.id != id
    decreases |ts|
  {
    if ts == [] then []
    else if ts[|ts| - 1].id == id then RemoveId(ts[..|ts| - 1], id)
    else RemoveId(ts[..|ts| - 1], id) + [ts[|ts| - 1]]
  }

  /** Removal works piecewise, so the kept toasts stay in their original order. */
  lemma {:induction false} RemoveIdDistributes(a: seq<Toast>, b: seq<Toast>, id: nat)
    ensures RemoveId(a + b, id) == RemoveId(a, id) + RemoveId(b, id)
    decreases |b|
  {
    if b == [] {
      assert a + b == a;
    } else {
      var b', last := b[..|b| - 1], b[|b| - 1];
      RemoveIdDistributes(a, b', id);
      assert (a + b)[..|a + b| - 1] == a + b';
      assert (a + b)[|a + b| - 1] == last;
      var tail := if last.id == id then [] else [last];
      assert RemoveId(a + b, id) == RemoveId(a + b', id) + tail;
      assert RemoveId(b, id) == RemoveId(b', id) + tail;
    }
  }

  /** Removing an id that no toast carries leaves the list as it was. */
  lemma {:induction false} RemoveAbsentId(ts: seq<Toast>, id: nat)
    requires forall i :: 0 <= i < |ts| ==> ts[i].id != id
    ensures RemoveId(ts, id) == ts
    decreases |ts|
  {
    if ts != [] {
      RemoveAbsentId(ts[..|ts| - 1], id);
    }
  }

  /** Removal keeps ids strictly increasing. */
  lemma {:induction false} RemoveIdKeepsOrder(ts: seq<Toast>, id: nat)
    requires IdsIncreasing(ts)
    ensures IdsIncreasing(RemoveId(ts, id))
    decreases |ts|
  {
    if ts != [] {
      var init := ts[..|ts| - 1];
      var last := ts[|ts| - 1];
      RemoveIdKeepsOrder(init, id);
      var r := RemoveId(init, id);
      forall t | t in r ensures t.id < last.id {
        var k :| 0 <= k < |init| && init[k] == t;
      }
    }
  }

  /** No toast left after a removal carries the removed id. */
  lemma RemoveIdDropsMatches(ts: seq<Toast>, id: nat)
    ensures forall i :: 0 <= i < |RemoveId(ts, id)| ==> RemoveId(ts, id)[i].id != id
  {
    var r := RemoveId(ts, id);
    forall i | 0 <= i < |r| ensures r[i].id != id {
      assert r[i] in r;
    }
  }

  /** ToastService. */
  class ToastService {
    var toasts: seq<Toast>
    var idCounter: nat
    /** Ids whose 5-second removal timer is still pending, in firing order. */
    var expiries: seq<nat>

    ghost predicate Valid()
      reads this
    {
      && IdsIncreasing(toasts)
      && Increasing(expiries)
      && (forall i :: 0 <= i < |toasts| ==> toasts[i].id < idCounter && toasts[i].id in expiries)
      && (forall i :: 0 <= i < |expiries| ==> expiries[i] < idCounter)
    }

    /** No toasts and a counter at 0. */
    constructor ()
      ensures Valid()
      ensures toasts == [] && idCounter == 0 && expiries == []
    {
      toasts := [];
      idCounter := 0;
      expiries := [];
    }

    /** addToast: append a toast with the next id and schedule its removal. */
    method AddToast(message: string, kind: ToastKind)
      requires Valid()
      modifies this
      ensures Valid()
      ensures toasts == old(toasts) + [Toast(message, kind, old(idCounter))]
      ensures idCounter == old(idCounter) + 1
      ensures expiries == old(expiries) + [old(idCounter)]
    {
      var id := idCounter;
      idCounter := idCounter + 1;
      toasts := toasts + [Toast(message, kind, id)];
      expiries := expiries + [id];
    }

    /** showError. */
    method ShowError(message: string)
      requires Valid()
      modifies this
      ensures Valid()
      ensures toasts == old(toasts) + [Toast(message, Error, old(idCounter))]
      ensures idCounter == old(idCounter) + 1
      ensures expiries == old(expiries) + [old(idCounter)]
    {
      AddToast(message, Error);
    }

    /** showSuccess. */
    method ShowSuccess(message: string)
      requires Valid()
      modifies this
      ensures Valid()
      ensures toasts == old(toasts) + [Toast(message, Success, old(idCounter))]
      ensures idCounter == old(idCounter) + 1
      ensures expiries == old(expiries) + [old(idCounter)]
    {
      AddToast(message, Success);
    }

    /** showInfo. */
    method ShowInfo(message: string)
      requires Valid()
      modifies this
      ensures Valid()
      ensures toasts == old(toasts) + [Toast(message, Info, old(idCounter))]
      ensures idCounter == old(idCounter) + 1
      ensures expiries == old(expiries) + [old(idCounter)]
    {
      AddToast(message, Info);
    }

    /** removeToast: drop every toast with this id, keep the rest in order. */
    method RemoveToast(id: nat)
      requires Valid()
      modifies this`toasts
      ensures Valid()
      ensures toasts == RemoveId(old(toasts), id)
    {
      RemoveIdKeepsOrder(toasts, id);
      toasts := RemoveId(toasts, id);
    }

    /** The oldest pending 5-second timer fires and removes its toast. */
    method ExpiryFires()
      requires Valid()
      requires expiries != []
      modifies this
      ensures Valid()
      ensures toasts == RemoveId(old(toasts), old(expiries)[0])
      ensures expiries == old(expiries)[1..] && idCounter == old(idCounter)
    {
      var id := expiries[0];
      RemoveToast(id);
      expiries := expiries[1..];
      forall i | 0 <= i < |toasts| ensures toasts[i].id in expiries {
        RemoveIdDropsMatches(old(toasts), id);
        assert toasts[i] in old(toasts);
      }
    }
  }
}
