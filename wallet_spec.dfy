/** What the agent wallet of src/wallet.ts does, stated as functions of the
    state it starts from: which senders a discovery pass finds, the calls a
    sync or a send makes and in which order, what the balances add up to,
    what unsubscribing removes, what a restore leaves behind and how the
    configuration is completed. `Wallet.QiAgentWallet` is proved to follow
    these definitions; the lemmas here state what the definitions promise. */
module WalletSpec {
  import opened Wrappers
  import opened Types
  import Denominations
  import opened Mailbox

  /** A call the wallet makes on one of its collaborators, with its outcome. */
  datatype Event =
    | QueryMailbox(receiver: PaymentCode)
    | OpenChannel(counterparty: PaymentCode, isOpen: bool)
    | SenderCallback(callback: CallbackId, sender: PaymentCode)
    | Scan(zone: Zone, ok: bool)
    | Notify(sender: PaymentCode, receiver: PaymentCode, ok: bool)
    | SendTransaction(recipient: PaymentCode, amount: int, origin: Zone, destination: Zone, ok: bool)

  predicate NoDuplicates<T(==)>(s: seq<T>) {
    forall i, j :: 0 <= i < j < |s| ==> s[i] != s[j]
  }

  // ---------------------------------------------------------------------
  // Sender discovery

  /** The senders a discovery pass adds, given the known senders and the
      notification list: every listed sender not yet known, once, in the
      order of first appearance. Restoring a snapshot's sender list uses the
      same step, so `known + NewSenders(known, more)` is the known-senders set
      after adding `more`. */
  function NewSenders(known: seq<PaymentCode>, notifications: seq<PaymentCode>): seq<PaymentCode>
    decreases |notifications|
  {
    if notifications == [] then []
    else
      var s := notifications[|notifications| - 1];
      var prev := NewSenders(known, notifications[..|notifications| - 1]);
      if s in known || s in prev then prev else prev + [s]
  }

  /** A pass finds each listed sender that is not yet known, and finds it
      once. */
  lemma {:induction false} NewSendersSpec(known: seq<PaymentCode>, notifications: seq<PaymentCode>)
    ensures NoDuplicates(NewSenders(known, notifications))
    ensures forall s :: s in NewSenders(known, notifications) <==> s in notifications && s !in known
    decreases |notifications|
  {
    if notifications != [] {
      var init := notifications[..|notifications| - 1];
      NewSendersSpec(known, init);
      assert notifications == init + [notifications[|notifications| - 1]];
    }
  }

  lemma AppendAssoc<T>(a: seq<T>, b: seq<T>, c: seq<T>)
    ensures a + b + c == a + (b + c)
  {
  }

  /** The step of a discovery pass: a listed sender is new unless it is
      known or already found earlier in the list. */
  lemma NewSendersStep(known: seq<PaymentCode>, init: seq<PaymentCode>, s: PaymentCode)
    ensures NewSenders(known, init + [s]) ==
      if s in known + NewSenders(known, init) then NewSenders(known, init) else NewSenders(known, init) + [s]
  {
    assert (init + [s])[..|init|] == init;
  }

  /** One step of a discovery pass in terms of everything it extends: a
      listed sender that is new adds its own block of calls and, when well
      formed, its channel. */
  lemma DiscoverStep(known: seq<PaymentCode>, init: seq<PaymentCode>, s: PaymentCode,
                     malformed: set<PaymentCode>, callbacks: seq<CallbackId>)
    ensures var ns := NewSenders(known, init);
      s !in known + ns ==>
        && NewSenders(known, init + [s]) == ns + [s]
        && DiscoverEvents(ns + [s], malformed, callbacks)
             == DiscoverEvents(ns, malformed, callbacks) + SenderEvents(s, malformed, callbacks)
        && OpenedChannels(ns + [s], malformed) == OpenedChannels(ns, malformed) + (if s in malformed then {} else {s})
    ensures s in known + NewSenders(known, init) ==> NewSenders(known, init + [s]) == NewSenders(known, init)
  {
    NewSendersStep(known, init, s);
    var ns := NewSenders(known, init);
    assert (ns + [s])[..|ns|] == ns;
  }

  /** The channels a discovery pass opens: those of its senders whose code
      is well formed. */
  function OpenedChannels(senders: seq<PaymentCode>, malformed: set<PaymentCode>): set<PaymentCode>
    decreases |senders|
  {
    if senders == [] then {}
    else
      var s := senders[|senders| - 1];
      OpenedChannels(senders[..|senders| - 1], malformed) + (if s in malformed then {} else {s})
  }

  /** A pass opens the channel of exactly its well-formed senders. */
  lemma {:induction false} OpenedChannelsSpec(senders: seq<PaymentCode>, malformed: set<PaymentCode>, c: PaymentCode)
    ensures c in OpenedChannels(senders, malformed) <==> c in senders && c !in malformed
    decreases |senders|
  {
    if senders != [] {
      var init := senders[..|senders| - 1];
      OpenedChannelsSpec(init, malformed, c);
      assert senders == init + [senders[|senders| - 1]];
    }
  }

  /** `Array.prototype.indexOf`: the first position of `x`, or -1. */
  function IndexOf<T(==)>(s: seq<T>, x: T): (i: int)
    ensures -1 <= i < |s|
    ensures i == -1 <==> x !in s
    ensures 0 <= i ==> s[i] == x && x !in s[..i]
  {
    if s == [] then -1
    else if s[0] == x then 0
    else
      var j := IndexOf(s[1..], x);
      if j == -1 then -1
      else
        assert s[..j + 1] == [s[0]] + s[1..][..j];
        j + 1
  }

  /** The first occurrence is the only position holding `x` with no `x`
      before it. */
  lemma IndexOfIs<T>(s: seq<T>, x: T, i: nat)
    requires i < |s| && s[i] == x && x !in s[..i]
    ensures IndexOf(s, x) == i
  {
    var f := IndexOf(s, x);
    assert forall k :: 0 <= k < i ==> s[..i][k] == s[k] && s[k] != x;
    assert 0 <= f && forall k :: 0 <= k < f ==> s[..f][k] == s[k] && s[k] != x;
  }

  /** Appending an element does not move the first occurrence of anything
      already present, and an element not present before is found at the end. */
  lemma IndexOfAppend<T>(s: seq<T>, y: T, x: T)
    ensures x in s ==> IndexOf(s + [y], x) == IndexOf(s, x)
    ensures x !in s && x == y ==> IndexOf(s + [y], x) == |s|
  {
    if x in s {
      var k := IndexOf(s, x);
      assert (s + [y])[..k] == s[..k];
      IndexOfIs(s + [y], x, k);
    } else if x == y {
      assert (s + [y])[..|s|] == s;
      IndexOfIs(s + [y], x, |s|);
    }
  }

  /** `r` lists its elements in the order of their first occurrence in `s`. */
  predicate InListOrder<T(==)>(r: seq<T>, s: seq<T>) {
    forall i, j :: 0 <= i < j < |r| ==> IndexOf(s, r[i]) < IndexOf(s, r[j])
  }

  lemma InListOrderExtend<T>(r: seq<T>, s: seq<T>, y: T)
    requires InListOrder(r, s) && forall x :: x in r ==> x in s
    ensures InListOrder(r, s + [y])
  {
    forall x | x in r ensures IndexOf(s + [y], x) == IndexOf(s, x) {
      IndexOfAppend(s, y, x);
    }
    forall i, j | 0 <= i < j < |r| ensures IndexOf(s + [y], r[i]) < IndexOf(s + [y], r[j]) {
      assert r[i] in r && r[j] in r;
    }
  }

  lemma InListOrderAppend<T>(r: seq<T>, s: seq<T>, y: T)
    requires InListOrder(r, s + [y]) && y !in s && forall x :: x in r ==> x in s
    ensures InListOrder(r + [y], s + [y])
  {
    IndexOfAppend(s, y, y);
    var r' := r + [y];
    forall i, j | 0 <= i < j < |r'| ensures IndexOf(s + [y], r'[i]) < IndexOf(s + [y], r'[j]) {
      assert r'[i] == r[i] && r[i] in r;
      IndexOfAppend(s, y, r[i]);
      if j < |r| {
        assert r'[j] == r[j];
      }
    }
  }

  /** The new senders come in the order in which they first appear in the
      notification list. */
  lemma {:induction false} NewSendersInListOrder(known: seq<PaymentCode>, notifications: seq<PaymentCode>)
    ensures InListOrder(NewSenders(known, notifications), notifications)
    decreases |notifications|
  {
    if notifications != [] {
      var n := |notifications|;
      var init := notifications[..n - 1];
      var s := notifications[n - 1];
      var prev := NewSenders(known, init);
      NewSendersInListOrder(known, init);
      NewSendersSpec(known, init);
      assert notifications == init + [s];
      InListOrderExtend(prev, init, s);
      if !(s in known || s in prev) {
        InListOrderAppend(prev, init, s);
      }
    }
  }

  /** Nothing is new in a list whose every entry is known. */
  lemma {:induction false} NothingNewWhenAllKnown(known: seq<PaymentCode>, notifications: seq<PaymentCode>)
    requires forall t :: t in notifications ==> t in known
    ensures NewSenders(known, notifications) == []
    decreases |notifications|
  {
    if notifications != [] {
      var init := notifications[..|notifications| - 1];
      assert forall t :: t in init ==> t in notifications;
      NothingNewWhenAllKnown(known, init);
      assert notifications[|notifications| - 1] in notifications;
    }
  }

  /** A second pass over a list that has not changed finds nothing new. */
  lemma RediscoveryFindsNothing(known: seq<PaymentCode>, notifications: seq<PaymentCode>)
    ensures NewSenders(known + NewSenders(known, notifications), notifications) == []
  {
    NewSendersSpec(known, notifications);
    NothingNewWhenAllKnown(known + NewSenders(known, notifications), notifications);
  }

  /** A list of distinct senders, none of them known, is added in full and
      in its own order. */
  lemma {:induction false} NewSendersOfFresh(known: seq<PaymentCode>, senders: seq<PaymentCode>)
    requires NoDuplicates(senders)
    requires forall s :: s in senders ==> s !in known
    ensures NewSenders(known, senders) == senders
    decreases |senders|
  {
    if senders != [] {
      var init := senders[..|senders| - 1];
      var s := senders[|senders| - 1];
      assert senders == init + [s];
      NewSendersOfFresh(known, init);
      assert s !in init;
    }
  }

  /** The callbacks one new sender triggers, in registration order. */
  function CallbackEvents(callbacks: seq<CallbackId>, sender: PaymentCode): (es: seq<Event>)
    ensures |es| == |callbacks|
  {
    seq(|callbacks|, k requires 0 <= k < |callbacks| => SenderCallback(callbacks[k], sender))
  }

  /** The calls made for one new sender: the channel open attempt, then every
      sender callback, whatever the open attempt did. */
  function SenderEvents(sender: PaymentCode, malformed: set<PaymentCode>, callbacks: seq<CallbackId>): seq<Event> {
    [OpenChannel(sender, sender !in malformed)] + CallbackEvents(callbacks, sender)
  }

  /** The calls a discovery pass makes after reading the mailbox. */
  function DiscoverEvents(senders: seq<PaymentCode>, malformed: set<PaymentCode>, callbacks: seq<CallbackId>): seq<Event>
    decreases |senders|
  {
    if senders == [] then []
    else
      var n := |senders|;
      DiscoverEvents(senders[..n - 1], malformed, callbacks) + SenderEvents(senders[n - 1], malformed, callbacks)
  }

  /** A pass makes one channel open and one call per sender callback for
      each new sender, and nothing else. */
  lemma {:induction false} DiscoverEventsShape(senders: seq<PaymentCode>, malformed: set<PaymentCode>, callbacks: seq<CallbackId>)
    ensures |DiscoverEvents(senders, malformed, callbacks)| == |senders| * (1 + |callbacks|)
    ensures forall e :: e in DiscoverEvents(senders, malformed, callbacks) ==> e.OpenChannel? || e.SenderCallback?
    decreases |senders|
  {
    if senders != [] {
      var n := |senders|;
      DiscoverEventsShape(senders[..n - 1], malformed, callbacks);
      var b := 1 + |callbacks|;
      assert (n - 1) * b + b == n * b;
    }
  }

  /** The calls of a discovery pass come in one block per new sender, in the
      order of the senders: the block of the k-th sender is its open attempt
      followed by each registered callback, so a failed open or a throwing
      callback never cuts the pass short. */
  lemma {:induction false} DiscoverEventsBlock(senders: seq<PaymentCode>, malformed: set<PaymentCode>, callbacks: seq<CallbackId>, k: nat)
    requires k < |senders|
    ensures var b := 1 + |callbacks|;
      (k + 1) * b <= |DiscoverEvents(senders, malformed, callbacks)| &&
      DiscoverEvents(senders, malformed, callbacks)[k * b .. (k + 1) * b] == SenderEvents(senders[k], malformed, callbacks)
    decreases |senders|
  {
    var b := 1 + |callbacks|;
    var n := |senders|;
    var init := senders[..n - 1];
    var prev := DiscoverEvents(init, malformed, callbacks);
    var es := DiscoverEvents(senders, malformed, callbacks);
    assert es == prev + SenderEvents(senders[n - 1], malformed, callbacks);
    DiscoverEventsShape(init, malformed, callbacks);
    if k < n - 1 {
      DiscoverEventsBlock(init, malformed, callbacks, k);
      assert (k + 1) * b <= (n - 1) * b;
      assert es[k * b .. (k + 1) * b] == prev[k * b .. (k + 1) * b];
    } else {
      assert k * b == |prev|;
      assert (k + 1) * b == |es|;
    }
  }

  /** A channel open is attempted for exactly the senders of the pass, and
      it reports failure exactly for malformed codes. */
  lemma {:induction false} DiscoverEventsOpen(senders: seq<PaymentCode>, malformed: set<PaymentCode>, callbacks: seq<CallbackId>, c: PaymentCode, ok: bool)
    ensures OpenChannel(c, ok) in DiscoverEvents(senders, malformed, callbacks)
        <==> c in senders && ok == (c !in malformed)
    decreases |senders|
  {
    if senders != [] {
      var n := |senders|;
      var init := senders[..n - 1];
      DiscoverEventsOpen(init, malformed, callbacks, c, ok);
      var last := SenderEvents(senders[n - 1], malformed, callbacks);
      assert senders == init + [senders[n - 1]];
      assert OpenChannel(c, ok) in last <==> c == senders[n - 1] && ok == (c !in malformed) by {
        assert last[0] == OpenChannel(senders[n - 1], senders[n - 1] !in malformed);
        assert forall i :: 1 <= i < |last| ==> last[i].SenderCallback?;
      }
    }
  }

  /** Once a sender is known, no later discovery pass opens a channel with it,
      whatever the mailbox lists then: a channel whose open failed is never
      retried. */
  lemma FailedOpenNotRetried(known: seq<PaymentCode>, notifications: seq<PaymentCode>, later: seq<PaymentCode>,
                             malformed: set<PaymentCode>, callbacks: seq<CallbackId>, c: PaymentCode, ok: bool)
    requires c in NewSenders(known, notifications)
    ensures OpenChannel(c, ok) !in
      DiscoverEvents(NewSenders(known + NewSenders(known, notifications), later), malformed, callbacks)
  {
    NewSendersSpec(known + NewSenders(known, notifications), later);
    DiscoverEventsOpen(NewSenders(known + NewSenders(known, notifications), later), malformed, callbacks, c, ok);
  }

  // ---------------------------------------------------------------------
  // Sync

  /** The calls of `sync(zone)`: the mailbox read, the discovery pass over
      what it returned, then the scan of the zone. */
  function SyncEvents(myCode: PaymentCode, known: seq<PaymentCode>, notifications: seq<PaymentCode>,
                      malformed: set<PaymentCode>, callbacks: seq<CallbackId>, zone: Zone, scanOk: bool): seq<Event>
  {
    [QueryMailbox(myCode)] + DiscoverEvents(NewSenders(known, notifications), malformed, callbacks) + [Scan(zone, scanOk)]
  }

  /** Discovery, including every channel open, is over before the zone is
      scanned: the scan is the last call and the only one, and each new
      sender's open attempt comes before it. */
  lemma DiscoveryBeforeScan(myCode: PaymentCode, known: seq<PaymentCode>, notifications: seq<PaymentCode>,
                            malformed: set<PaymentCode>, callbacks: seq<CallbackId>, zone: Zone, scanOk: bool)
    ensures var es := SyncEvents(myCode, known, notifications, malformed, callbacks, zone, scanOk);
      && es[|es| - 1] == Scan(zone, scanOk)
      && (forall i :: 0 <= i < |es| - 1 ==> !es[i].Scan?)
      && forall s :: s in notifications && s !in known ==>
           exists i :: 0 <= i < |es| - 1 && es[i].OpenChannel? && es[i].counterparty == s
  {
    var es := SyncEvents(myCode, known, notifications, malformed, callbacks, zone, scanOk);
    var senders := NewSenders(known, notifications);
    var ds := DiscoverEvents(senders, malformed, callbacks);
    assert es == [QueryMailbox(myCode)] + ds + [Scan(zone, scanOk)];
    DiscoverEventsShape(senders, malformed, callbacks);
    forall i | 0 <= i < |es| - 1 ensures !es[i].Scan? {
      if i > 0 { assert es[i] == ds[i - 1] && ds[i - 1] in ds; }
    }
    NewSendersSpec(known, notifications);
    forall s | s in notifications && s !in known
      ensures exists i :: 0 <= i < |es| - 1 && es[i].OpenChannel? && es[i].counterparty == s
    {
      var ok := s !in malformed;
      DiscoverEventsOpen(senders, malformed, callbacks, s, ok);
      var j :| 0 <= j < |ds| && ds[j] == OpenChannel(s, ok);
      assert es[j + 1] == ds[j];
    }
  }

  // ---------------------------------------------------------------------
  // Send

  /** The calls of `send`: the mailbox membership check, the notify when the
      check came back false, and the payment unless the notify failed. */
  function SendEvents(myCode: PaymentCode, recipient: PaymentCode, amount: int, origin: Zone, destination: Zone,
                      alreadyNotified: bool, notifyOk: bool, payOk: bool): seq<Event>
  {
    [QueryMailbox(recipient)]
    + (if alreadyNotified then [] else [Notify(myCode, recipient, notifyOk)])
    + (if alreadyNotified || notifyOk then [SendTransaction(recipient, amount, origin, destination, payOk)] else [])
  }

  /** The notify happens if and only if the recipient had not been notified,
      it names this wallet and the recipient, it comes before the payment,
      and a failed notify means no payment. */
  lemma NotifyGatesPayment(myCode: PaymentCode, recipient: PaymentCode, amount: int, origin: Zone, destination: Zone,
                           alreadyNotified: bool, notifyOk: bool, payOk: bool)
    ensures var es := SendEvents(myCode, recipient, amount, origin, destination, alreadyNotified, notifyOk, payOk);
      && ((exists i :: 0 <= i < |es| && es[i].Notify?) <==> !alreadyNotified)
      && (forall i :: 0 <= i < |es| && es[i].Notify? ==> es[i].sender == myCode && es[i].receiver == recipient)
      && (forall i, j :: 0 <= i < |es| && 0 <= j < |es| && es[i].Notify? && es[j].SendTransaction? ==> i < j)
      && ((exists j :: 0 <= j < |es| && es[j].SendTransaction?) <==> alreadyNotified || notifyOk)
  {
    var es := SendEvents(myCode, recipient, amount, origin, destination, alreadyNotified, notifyOk, payOk);
    if !alreadyNotified {
      assert es[1].Notify?;
    }
    if alreadyNotified || notifyOk {
      assert es[|es| - 1].SendTransaction?;
    }
  }

  function CountNotifies(es: seq<Event>): nat {
    if es == [] then 0
    else CountNotifies(es[..|es| - 1]) + (if es[|es| - 1].Notify? then 1 else 0)
  }

  /** A send issues one notify when the recipient had not been notified and
      none otherwise, whatever the notify and the payment then do. */
  lemma CountNotifiesOfSend(myCode: PaymentCode, recipient: PaymentCode, amount: int, origin: Zone, destination: Zone,
                            alreadyNotified: bool, notifyOk: bool, payOk: bool)
    ensures CountNotifies(SendEvents(myCode, recipient, amount, origin, destination, alreadyNotified, notifyOk, payOk))
         == if alreadyNotified then 0 else 1
  {
    var es := SendEvents(myCode, recipient, amount, origin, destination, alreadyNotified, notifyOk, payOk);
    var q := [QueryMailbox(recipient)];
    var n := if alreadyNotified then [] else [Notify(myCode, recipient, notifyOk)];
    var p := if alreadyNotified || notifyOk then [SendTransaction(recipient, amount, origin, destination, payOk)] else [];
    assert es == q + n + p;
    CountNotifiesAppend(q + n, p);
    CountNotifiesAppend(q, n);
    assert q[..0] == [];
    if !alreadyNotified { assert n[..0] == []; }
    if alreadyNotified || notifyOk { assert p[..0] == []; }
  }

  lemma {:induction false} CountNotifiesAppend(a: seq<Event>, b: seq<Event>)
    ensures CountNotifies(a + b) == CountNotifies(a) + CountNotifies(b)
    decreases |b|
  {
    if b == [] {
      assert a + b == a;
    } else {
      assert (a + b)[..|a + b| - 1] == a + b[..|b| - 1];
      CountNotifiesAppend(a, b[..|b| - 1]);
    }
  }

  // ---------------------------------------------------------------------
  // Balances

  /** What a zone adds to the total balance: nothing when its outputs cannot
      be read. */
  function ZoneContribution(outpoints: map<Zone, seq<int>>, unavailable: set<Zone>, zone: Zone): nat {
    if zone in unavailable then 0 else Denominations.LenientSum(OutpointsIn(outpoints, zone))
  }

  function TotalOver(outpoints: map<Zone, seq<int>>, unavailable: set<Zone>, zones: seq<Zone>): nat
    decreases |zones|
  {
    if zones == [] then 0
    else TotalOver(outpoints, unavailable, zones[..|zones| - 1]) + ZoneContribution(outpoints, unavailable, zones[|zones| - 1])
  }

  /** The outputs of the readable zones, zone after zone. */
  function ReadableOutputs(outpoints: map<Zone, seq<int>>, unavailable: set<Zone>, zones: seq<Zone>): seq<int>
    decreases |zones|
  {
    if zones == [] then []
    else
      var z := zones[|zones| - 1];
      ReadableOutputs(outpoints, unavailable, zones[..|zones| - 1]) + (if z in unavailable then [] else OutpointsIn(outpoints, z))
  }

  /** The total is the value of every output in the zones that could be
      read, and when none of those outputs has an out-of-range index it is
      what `sumDenominations` makes of them. */
  lemma {:induction false} TotalIsValueOfReadableOutputs(outpoints: map<Zone, seq<int>>, unavailable: set<Zone>, zones: seq<Zone>)
    ensures TotalOver(outpoints, unavailable, zones) == Denominations.LenientSum(ReadableOutputs(outpoints, unavailable, zones))
    ensures var outs := ReadableOutputs(outpoints, unavailable, zones);
      (forall i :: 0 <= i < |outs| ==> Denominations.InRange(outs[i])) ==>
        Denominations.SumDenominations(outs) == Success(TotalOver(outpoints, unavailable, zones))
    decreases |zones|
  {
    if zones != [] {
      var z := zones[|zones| - 1];
      var init := zones[..|zones| - 1];
      TotalIsValueOfReadableOutputs(outpoints, unavailable, init);
      Denominations.LenientSumAppend(ReadableOutputs(outpoints, unavailable, init),
                                     if z in unavailable then [] else OutpointsIn(outpoints, z));
    }
  }

  /** A zone that cannot be read costs the total exactly its own balance and
      leaves the other zones' contributions as they were. */
  lemma {:induction false} UnreadableZoneCountsZero(outpoints: map<Zone, seq<int>>, unavailable: set<Zone>, zones: seq<Zone>, z: Zone)
    requires NoDuplicates(zones) && z in zones && z !in unavailable
    ensures TotalOver(outpoints, unavailable + {z}, zones) + Denominations.LenientSum(OutpointsIn(outpoints, z))
         == TotalOver(outpoints, unavailable, zones)
    decreases |zones|
  {
    var n := |zones|;
    var init := zones[..n - 1];
    var last := zones[n - 1];
    assert zones == init + [last];
    if last == z {
      assert z !in init;
      TotalIgnoresOtherZones(outpoints, unavailable, init, z);
    } else {
      UnreadableZoneCountsZero(outpoints, unavailable, init, z);
    }
  }

  lemma {:induction false} TotalIgnoresOtherZones(outpoints: map<Zone, seq<int>>, unavailable: set<Zone>, zones: seq<Zone>, z: Zone)
    requires z !in zones
    ensures TotalOver(outpoints, unavailable + {z}, zones) == TotalOver(outpoints, unavailable, zones)
    decreases |zones|
  {
    if zones != [] {
      TotalIgnoresOtherZones(outpoints, unavailable, zones[..|zones| - 1], z);
      assert zones[|zones| - 1] in zones;
    }
  }

  // ---------------------------------------------------------------------
  // Callback subscriptions

  /** The unsubscribe handle's effect: drop the first occurrence of the
      callback, if there is one. */
  function RemoveFirst<T(==)>(s: seq<T>, x: T): seq<T> {
    if s == [] then []
    else if s[0] == x then s[1..]
    else [s[0]] + RemoveFirst(s[1..], x)
  }

  /** The handle's `indexOf` followed by `splice(idx, 1)` removes what
      `RemoveFirst` removes. */
  lemma {:induction false} RemoveFirstSplices<T>(s: seq<T>, x: T)
    ensures x !in s ==> RemoveFirst(s, x) == s
    ensures x in s ==> RemoveFirst(s, x) == s[..IndexOf(s, x)] + s[IndexOf(s, x) + 1..]
    decreases |s|
  {
    if s != [] && s[0] != x {
      var t := s[1..];
      RemoveFirstSplices(t, x);
      assert s == [s[0]] + t;
      if x in s {
        assert x in t;
        var j := IndexOf(t, x);
        assert IndexOf(s, x) == j + 1;
        assert s[..j + 1] == [s[0]] + t[..j];
        assert s[j + 2..] == t[j + 1..];
      }
    }
  }

  /** Unsubscribing removes one registration of the callback, the earliest,
      and keeps all others in order; without a registration it does nothing. */
  lemma RemoveFirstSpec<T>(s: seq<T>, x: T)
    ensures x !in s ==> RemoveFirst(s, x) == s
    ensures x in s ==> exists i :: 0 <= i < |s| && s[i] == x && x !in s[..i] && RemoveFirst(s, x) == s[..i] + s[i + 1..]
    ensures multiset(RemoveFirst(s, x)) == multiset(s) - multiset{x}
  {
    RemoveFirstSplices(s, x);
    var i := IndexOf(s, x);
    if i >= 0 {
      SpliceMultiset(s, i);
    }
  }

  lemma SpliceMultiset<T>(s: seq<T>, i: nat)
    requires i < |s|
    ensures multiset(s[..i] + s[i + 1..]) == multiset(s) - multiset{s[i]}
  {
    assert s == s[..i] + [s[i]] + s[i + 1..];
  }

  /** Subscribing then calling the handle restores the list; when the same
      callback was already registered, the new handle removes the earlier
      registration and the new one stays. */
  lemma {:induction false} SubscribeThenUnsubscribe<T>(s: seq<T>, x: T)
    ensures x !in s ==> RemoveFirst(s + [x], x) == s
    ensures x in s ==> RemoveFirst(s + [x], x) == RemoveFirst(s, x) + [x]
    decreases |s|
  {
    if s != [] {
      assert (s + [x])[0] == s[0];
      assert (s + [x])[1..] == s[1..] + [x];
      if s[0] != x {
        SubscribeThenUnsubscribe(s[1..], x);
        assert x in s <==> x in s[1..];
      }
    }
  }

  // ---------------------------------------------------------------------
  // Snapshot restore

  /** The known senders after a restore: those the sign-in sync discovered,
      then the snapshot's, each once. */
  function Restored(discovered: seq<PaymentCode>, snapshot: seq<PaymentCode>): (r: seq<PaymentCode>)
  {
    discovered + NewSenders(discovered, snapshot)
  }

  /** A restore keeps every sender of the snapshot, each once even when the
      snapshot repeats one, and adds only the discovered ones; with nothing
      discovered it gives back a duplicate-free snapshot's list exactly. */
  lemma RestoreRoundTrip(discovered: seq<PaymentCode>, snapshot: seq<PaymentCode>)
    requires NoDuplicates(discovered)
    ensures NoDuplicates(Restored(discovered, snapshot))
    ensures forall s :: s in Restored(discovered, snapshot) <==> s in discovered || s in snapshot
    ensures discovered == [] && NoDuplicates(snapshot) ==> Restored(discovered, snapshot) == snapshot
  {
    var added := NewSenders(discovered, snapshot);
    NewSendersSpec(discovered, snapshot);
    var r := discovered + added;
    forall i, j | 0 <= i < j < |r| ensures r[i] != r[j] {
      if j >= |discovered| && i < |discovered| {
        assert r[j] in added && r[i] in discovered;
      }
    }
    if discovered == [] && NoDuplicates(snapshot) {
      NewSendersOfFresh([], snapshot);
    }
  }

  /** A sender that only the snapshot lists is known after the restore
      without a channel open having been tried, and no later discovery pass
      tries one: if the sign-in read of the mailbox fails (and so returns an
      empty list), no restored sender gets a channel in this session. */
  lemma RestoredSenderNeverOpened(notifications: seq<PaymentCode>, snapshot: seq<PaymentCode>, later: seq<PaymentCode>,
                                  malformed: set<PaymentCode>, callbacks: seq<CallbackId>, c: PaymentCode, ok: bool)
    requires c in snapshot && c !in notifications
    ensures OpenChannel(c, ok) !in DiscoverEvents(NewSenders([], notifications), malformed, callbacks)
    ensures var known := Restored(NewSenders([], notifications), snapshot);
      c in known && OpenChannel(c, ok) !in DiscoverEvents(NewSenders(known, later), malformed, callbacks)
  {
    var discovered := NewSenders([], notifications);
    NewSendersSpec([], notifications);
    DiscoverEventsOpen(discovered, malformed, callbacks, c, ok);
    var known := Restored(discovered, snapshot);
    NewSendersSpec(discovered, snapshot);
    NewSendersSpec(known, later);
    DiscoverEventsOpen(NewSenders(known, later), malformed, callbacks, c, ok);
  }

  // ---------------------------------------------------------------------
  // Configuration

  /** JavaScript truthiness of an optional string: absent and "" are false. */
  predicate Given(s: Option<string>) {
    s.Some? && s.value != ""
  }

  function OrElse(s: Option<string>, default: string): string {
    if Given(s) then s.value else default
  }

  /** `resolveConfig`: fills every field that is absent or falsy from the
      network's preset or the fixed defaults (mainnet, 30000 ms, Cyprus1). */
  function ResolveConfig(c: AgentConfig): (r: ResolvedConfig)
    ensures r.network == c.network.GetOr(Mainnet)
    ensures r.rpcUrl == (if Given(c.rpcUrl) then c.rpcUrl.value else Preset(r.network).rpcUrl)
    ensures r.wsUrl == (if Given(c.wsUrl) then c.wsUrl.value else Preset(r.network).wsUrl)
    ensures r.mailboxAddress == (if Given(c.mailboxAddress) then c.mailboxAddress.value else Preset(r.network).mailboxAddress)
    ensures r.pollingInterval == (if c.pollingInterval.Some? && c.pollingInterval.value != 0 then c.pollingInterval.value else 30000)
    ensures r.defaultZone == c.defaultZone.GetOr(Cyprus1)
    ensures r.rpcUrl != "" && r.wsUrl != "" && r.pollingInterval != 0
    ensures r.mailboxAddress == "" <==> r.network == Local && !Given(c.mailboxAddress)
  {
    var network := c.network.GetOr(Mainnet);
    var preset := Preset(network);
    ResolvedConfig(
      OrElse(c.rpcUrl, preset.rpcUrl),
      OrElse(c.wsUrl, preset.wsUrl),
      network,
      OrElse(c.mailboxAddress, preset.mailboxAddress),
      if c.pollingInterval.Some? && c.pollingInterval.value != 0 then c.pollingInterval.value else 30000,
      c.defaultZone.GetOr(Cyprus1))
  }

  function AsConfig(r: ResolvedConfig): AgentConfig {
    AgentConfig(Some(r.rpcUrl), Some(r.wsUrl), Some(r.network), Some(r.mailboxAddress),
                Some(r.pollingInterval), Some(r.defaultZone))
  }

  /** Resolving a resolved configuration changes nothing. */
  lemma ResolveIdempotent(c: AgentConfig)
    ensures ResolveConfig(AsConfig(ResolveConfig(c))) == ResolveConfig(c)
  {
  }
}
