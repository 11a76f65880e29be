/** The instances of `MainActivity` themselves, over one mailbox and one key. */
module PhoneBackStack {
  import opened Protocol
  import opened PhoneMailbox
  import opened PhoneActivity
  import V = ActivitySteps
  import opened K = BackStackSteps
  import P = BackStackProofs

  ghost function Screens(activities: seq<MainActivity>): (screens: seq<V.Screen>)
    reads activities
    ensures |screens| == |activities|
    ensures forall i :: 0 <= i < |activities| ==> screens[i] == activities[i].Own()
  {
    seq(|activities|, i requires 0 <= i < |activities| reads activities => activities[i].Own())
  }

  lemma ScreensWithout(activities: seq<MainActivity>, k: nat)
    requires k < |activities|
    ensures Screens(activities[..k] + activities[k + 1..]) == Without(Screens(activities), k)
  {
    var rest := activities[..k] + activities[k + 1..];
    assert forall i :: k <= i < |rest| ==> rest[i] == activities[i + 1];
    assert forall i :: k <= i < |rest| ==> Without(Screens(activities), k)[i] == Screens(activities)[i + 1];
  }

  lemma ScreensUpdated(activities: seq<MainActivity>, k: nat, a: MainActivity)
    requires k < |activities|
    ensures Screens(activities[k := a]) == Screens(activities)[k := a.Own()]
  {
  }

  /** The instances are different objects with the same mailbox and key, and only the acting
      one can be in a poll. */
  ghost predicate Apart(bridge: Bridge, key: SigningKey, top: MainActivity, below: seq<MainActivity>)
    reads below
  {
    && top !in below && top.bridge == bridge && top.key == key
    && (forall i :: 0 <= i < |below| ==> below[i].bridge == bridge && below[i].key == key && below[i].polling.None?)
    && (forall i, j :: 0 <= i < j < |below| ==> below[i] != below[j])
  }

  lemma ClosedApart(bridge: Bridge, key: SigningKey, top: MainActivity, below: seq<MainActivity>, k: nat)
    requires Apart(bridge, key, top, below) && k < |below|
    ensures Apart(bridge, key, below[k], below[..k] + below[k + 1..])
    ensures Apart(bridge, key, top, below[..k] + below[k + 1..])
  {
  }

  lemma SwappedApart(bridge: Bridge, key: SigningKey, top: MainActivity, below: seq<MainActivity>, k: nat)
    requires Apart(bridge, key, top, below) && k < |below| && top.polling.None?
    ensures Apart(bridge, key, below[k], below[k := top])
  {
  }

  class BackStack {
    const bridge: Bridge
    const key: SigningKey
    var top: MainActivity
    var below: seq<MainActivity>

    ghost predicate Valid()
      reads this, below
    {
      Apart(bridge, key, top, below)
    }

    ghost function View(now: int): Stack
      requires Valid()
      reads this, top, below, bridge, key
    {
      Stack(top.View(now), Screens(below))
    }

    constructor (bridge: Bridge, key: SigningKey)
      requires key.log == [] && bridge.answers == [] && bridge.response.None?
      ensures Valid() && fresh(top) && below == []
      ensures forall now :: View(now) == Initial(bridge.View(now)) && P.Inv(View(now))
    {
      this.bridge, this.key, below := bridge, key, [];
      top := new MainActivity(bridge, key, None, 0);
      new;
      forall now ensures View(now) == Initial(bridge.View(now)) && P.Inv(View(now)) {
        P.InitialInv(bridge.View(now));
      }
    }

    /** A callback of the acting instance. */
    method Handle(e: V.Event, now: int) returns (later: int)
      requires Valid() && !e.Delivered?
      modifies top, key, bridge`response, bridge`answers
      ensures Valid() && below == old(below) && top == old(top)
      ensures View(later) == K.Step(old(View(now)), Here(e))
      ensures old(P.Sound(View(now))) ==> P.Sound(View(later)) && old(key.log) <= key.log
      ensures old(P.Inv(View(now))) ==> P.Inv(View(later))
    {
      ghost var before := View(now);
      later := Pass(e, now);
      if P.Sound(before) {
        P.HereKeepsSound(before, e);
      }
      if P.Inv(before) {
        P.StepKeepsInv(before, Here(e));
      }
    }

    method Pass(e: V.Event, now: int) returns (later: int)
      requires Valid() && !e.Delivered?
      modifies top, key, bridge`response, bridge`answers
      ensures Valid() && below == old(below) && top == old(top)
      ensures top.View(later) == V.Step(old(top.View(now)), e)
      ensures Screens(below) == old(Screens(below))
    {
      later := top.Dispatch(e, now);
      assert forall i :: 0 <= i < |below| ==> below[i].Own() == old(below[i].Own());
    }

    method Cover(id: Option<nat>, now: int)
      requires Valid() && top.polling.None?
      modifies this`top, this`below
      ensures Valid() && fresh(top) && below == old(below) + [old(top)]
      ensures View(now) == K.Arrange(old(View(now)), K.Cover(id))
    {
      below := below + [top];
      top := new MainActivity(bridge, key, id, top.attempts);
    }

    /** The instance `k` comes back. If it is harmless then, everything promised still holds. */
    method Return(k: nat, closed: bool, now: int)
      requires Valid() && top.polling.None? && k < |below|
      modifies this`top, this`below
      ensures Valid() && top == old(below)[k]
      ensures View(now) == K.Arrange(old(View(now)), K.Return(k, closed))
      ensures old(P.Inv(View(now)) && Harmless(View(now).covered[k], View(now).phone)) ==> P.Inv(View(now))
    {
      ghost var before := View(now);
      if closed {
        Close(k, now);
      } else {
        Swap(k, now);
      }
      if P.Inv(before) && Harmless(before.covered[k], before.phone) {
        P.StepKeepsInv(before, K.Return(k, closed));
      }
    }

    method Close(k: nat, now: int)
      requires Valid() && top.polling.None? && k < |below|
      modifies this`top, this`below
      ensures Valid() && top == old(below)[k]
      ensures View(now) == K.Arrange(old(View(now)), K.Return(k, true))
    {
      ClosedApart(bridge, key, top, below, k);
      ScreensWithout(below, k);
      top, below := below[k], below[..k] + below[k + 1..];
    }

    method Swap(k: nat, now: int)
      requires Valid() && top.polling.None? && k < |below|
      modifies this`top, this`below
      ensures Valid() && top == old(below)[k]
      ensures View(now) == K.Arrange(old(View(now)), K.Return(k, false))
    {
      SwappedApart(bridge, key, top, below, k);
      ScreensUpdated(below, k, top);
      top, below := below[k], below[k := top];
    }

    method Forget(k: nat, now: int)
      requires Valid() && k < |below|
      modifies this`below
      ensures Valid() && View(now) == K.Arrange(old(View(now)), K.Forget(k))
    {
      ClosedApart(bridge, key, top, below, k);
      ScreensWithout(below, k);
      below := below[..k] + below[k + 1..];
    }

    /** The worker of a stopped instance has prepared the key. */
    method Prepared(k: nat, busy: bool, keyed: bool, now: int)
      requires Valid() && k < |below|
      modifies below[k]
      ensures Valid() && View(now) == K.Arrange(old(View(now)), K.Prepared(k, busy, keyed))
    {
      ghost var screens := Screens(below);
      below[k].busy, below[k].keyed := busy, keyed;
      assert Screens(below) == screens[k := screens[k].(busy := busy, keyed := keyed)];
    }
  }
}
