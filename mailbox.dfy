/** The notification mailbox (src/mailbox.ts): a client of the on-chain
    PaymentChannelMailbox contract, through which a sender tells a receiver
    that it intends to pay to the receiver's payment code. The contract is
    external; `Registry` is the state the client can observe of it. */
module Mailbox {
  import opened Wrappers
  import opened Types

  /** The identity of a JavaScript callback function. */
  type CallbackId = nat

  datatype MailboxError = QueryFailed | WriteFailed

  /** The transaction response of a `notify` call, already confirmed. */
  datatype NotifyTx = NotifyTx(hash: TxHash)

  /** A registered `NotificationSent` listener: `filter` is the receiver it
      was registered for (`None` for `null`). */
  datatype Listener = Listener(id: nat, filter: Option<PaymentCode>, callback: CallbackId)

  /** One invocation of a user callback with an event's arguments. */
  datatype Delivery = Delivery(callback: CallbackId, sender: PaymentCode, receiver: PaymentCode)

  /** The listener's test: an absent or empty receiver filter lets every
      event through, otherwise only events for that receiver. */
  predicate Matches(filter: Option<PaymentCode>, receiver: PaymentCode) {
    filter.None? || filter.value == "" || filter.value == receiver
  }

  /** The callbacks one `NotificationSent(sender, receiver)` event reaches, in
      listener registration order. */
  function Dispatch(listeners: seq<Listener>, sender: PaymentCode, receiver: PaymentCode): (ds: seq<Delivery>)
    ensures |ds| <= |listeners|
    ensures forall d :: d in ds ==> d.sender == sender && d.receiver == receiver
  {
    if listeners == [] then []
    else
      var l := listeners[|listeners| - 1];
      Dispatch(listeners[..|listeners| - 1], sender, receiver)
        + (if Matches(l.filter, receiver) then [Delivery(l.callback, sender, receiver)] else [])
  }

  /** A callback is invoked for an event exactly when some listener carrying
      it lets the event's receiver through its filter. */
  lemma {:induction false} DispatchReaches(listeners: seq<Listener>, sender: PaymentCode, receiver: PaymentCode, cb: CallbackId)
    ensures Delivery(cb, sender, receiver) in Dispatch(listeners, sender, receiver)
        <==> exists l :: l in listeners && l.callback == cb && Matches(l.filter, receiver)
    decreases |listeners|
  {
    if listeners != [] {
      var init := listeners[..|listeners| - 1];
      var l := listeners[|listeners| - 1];
      DispatchReaches(init, sender, receiver, cb);
      assert listeners == init + [l];
      assert forall m :: m in listeners <==> m in init || m == l;
    }
  }

  function ListenerIds(listeners: seq<Listener>): set<nat> {
    set l | l in listeners :: l.id
  }

  predicate DistinctIds(listeners: seq<Listener>) {
    forall i, j :: 0 <= i < j < |listeners| ==> listeners[i].id != listeners[j].id
  }

  /** `contract.off(filter, listener)` for the listener registered under `id`. */
  function RemoveListener(listeners: seq<Listener>, id: nat): seq<Listener>
  {
    if listeners == [] then []
    else
      var l := listeners[|listeners| - 1];
      RemoveListener(listeners[..|listeners| - 1], id) + (if l.id == id then [] else [l])
  }

  /** Unsubscribing keeps exactly the listeners registered under other ids. */
  lemma {:induction false} RemoveListenerSpec(listeners: seq<Listener>, id: nat, l: Listener)
    ensures l in RemoveListener(listeners, id) <==> l in listeners && l.id != id
    decreases |listeners|
  {
    if listeners != [] {
      var init := listeners[..|listeners| - 1];
      RemoveListenerSpec(init, id, l);
      assert listeners == init + [listeners[|listeners| - 1]];
    }
  }

  /** With distinct ids, the unsubscribe removes exactly the one listener it
      registered and keeps every other listener in its place. */
  lemma {:induction false} RemoveListenerExact(listeners: seq<Listener>, k: nat)
    requires DistinctIds(listeners) && k < |listeners|
    ensures RemoveListener(listeners, listeners[k].id) == listeners[..k] + listeners[k + 1..]
    decreases |listeners|
  {
    var n := |listeners|;
    var init := listeners[..n - 1];
    var id := listeners[k].id;
    if k == n - 1 {
      RemoveListenerAbsent(init, id);
      assert listeners[..k] == init;
    } else {
      RemoveListenerExact(init, k);
      assert init[k].id == id;
      assert init[..k] + init[k + 1..] + [listeners[n - 1]] == listeners[..k] + listeners[k + 1..];
    }
  }

  lemma {:induction false} RemoveListenerAbsent(listeners: seq<Listener>, id: nat)
    requires forall l :: l in listeners ==> l.id != id
    ensures RemoveListener(listeners, id) == listeners
    decreases |listeners|
  {
    if listeners != [] {
      var init := listeners[..|listeners| - 1];
      RemoveListenerAbsent(init, id);
      assert init + [listeners[|listeners| - 1]] == listeners;
    }
  }

  /** The state of the mailbox contract as its clients see it: the senders
      appended per receiver, the listeners attached to its event, the user
      callbacks its events have reached, and whether reads and writes reach
      the contract at all. */
  class Registry {
    var inbox: map<PaymentCode, seq<PaymentCode>>
    var readFails: bool
    var writeFails: bool
    var txCount: nat
    var listeners: seq<Listener>
    var nextListener: nat
    var delivered: seq<Delivery>

    ghost predicate Valid()
      reads this
    {
      DistinctIds(listeners) && forall l :: l in listeners ==> l.id < nextListener
    }

    constructor (inbox: map<PaymentCode, seq<PaymentCode>>, readFails: bool, writeFails: bool)
      ensures Valid()
      ensures this.inbox == inbox && this.readFails == readFails && this.writeFails == writeFails
      ensures txCount == 0 && listeners == [] && delivered == []
    {
      this.inbox := inbox;
      this.readFails := readFails;
      this.writeFails := writeFails;
      txCount := 0;
      listeners := [];
      nextListener := 0;
      delivered := [];
    }

    /** The senders recorded for `receiver`, in the order they notified. */
    function Inbox(receiver: PaymentCode): seq<PaymentCode>
      reads this
    {
      if receiver in inbox then inbox[receiver] else []
    }

    /** The contract's `getNotifications` view call. */
    method GetNotifications(receiver: PaymentCode) returns (r: Result<seq<PaymentCode>, MailboxError>)
      ensures readFails <==> r.Failure?
      ensures r.Success? ==> r.value == Inbox(receiver)
    {
      if readFails {
        return Failure(QueryFailed);
      }
      return Success(Inbox(receiver));
    }

    /** The contract's `notify` transaction: appends `sender` to the receiver's
        list (duplicates included) and emits `NotificationSent`. */
    method Notify(sender: PaymentCode, receiver: PaymentCode) returns (r: Result<NotifyTx, MailboxError>)
      modifies this`inbox, this`txCount, this`delivered
      ensures writeFails <==> r.Failure?
      ensures writeFails ==> inbox == old(inbox) && txCount == old(txCount) && delivered == old(delivered)
      ensures !writeFails ==>
        && r.value == NotifyTx(HashOf(old(txCount)))
        && inbox == old(inbox)[receiver := old(Inbox(receiver)) + [sender]]
        && txCount == old(txCount) + 1
        && delivered == old(delivered) + Dispatch(listeners, sender, receiver)
    {
      if writeFails {
        return Failure(WriteFailed);
      }
      r := Success(NotifyTx(HashOf(txCount)));
      inbox := inbox[receiver := Inbox(receiver) + [sender]];
      txCount := txCount + 1;
      delivered := delivered + Dispatch(listeners, sender, receiver);
    }

    /** `contract.on(filter, listener)`. */
    method On(filter: Option<PaymentCode>, callback: CallbackId) returns (id: nat)
      requires Valid()
      modifies this`listeners, this`nextListener
      ensures Valid()
      ensures id !in ListenerIds(old(listeners))
      ensures listeners == old(listeners) + [Listener(id, filter, callback)]
    {
      id := nextListener;
      listeners := listeners + [Listener(id, filter, callback)];
      nextListener := nextListener + 1;
    }

    /** `contract.off(filter, listener)`. */
    method Off(id: nat)
      requires Valid()
      modifies this`listeners
      ensures Valid()
      ensures listeners == RemoveListener(old(listeners), id)
    {
      listeners := RemoveListener(listeners, id);
      assert DistinctIds(listeners) by {
        RemoveListenerKeepsDistinct(old(listeners), id);
      }
      forall l | l in listeners ensures l.id < nextListener {
        RemoveListenerSpec(old(listeners), id, l);
      }
    }
  }

  lemma {:induction false} RemoveListenerKeepsDistinct(listeners: seq<Listener>, id: nat)
    requires DistinctIds(listeners)
    ensures DistinctIds(RemoveListener(listeners, id))
    decreases |listeners|
  {
    if listeners != [] {
      var init := listeners[..|listeners| - 1];
      var l := listeners[|listeners| - 1];
      RemoveListenerKeepsDistinct(init, id);
      var r := RemoveListener(init, id);
      forall m | m in r ensures m.id != l.id {
        RemoveListenerSpec(init, id, m);
        var i :| 0 <= i < |init| && init[i] == m;
      }
    }
  }

  /** The handle `onNotification` returns; calling `Unsubscribe` with it is
      calling the returned function. */
  datatype NotificationSubscription = NotificationSubscription(id: nat)

  /** `MailboxClient`: the wrapper over the mailbox contract. */
  class MailboxClient {
    const address: string
    const contract: Registry

    constructor (address: string, contract: Registry)
      ensures this.address == address && this.contract == contract
    {
      this.address := address;
      this.contract := contract;
    }

    /** `getAddress`: the address given at construction. */
    method GetAddress() returns (a: string)
      ensures a == address
    {
      return address;
    }

    /** `getNotifications`: the senders that notified `receiver`; a failed
        read is reported as an empty list. */
    method GetNotifications(receiver: PaymentCode) returns (list: seq<PaymentCode>)
      ensures contract.readFails ==> list == []
      ensures !contract.readFails ==> list == contract.Inbox(receiver)
    {
      var r := contract.GetNotifications(receiver);
      match r
      case Success(notifications) => list := notifications;
      case Failure(_) => list := [];
    }

    /** `hasNotified`: whether `sender` occurs in the fetched list. */
    method HasNotified(sender: PaymentCode, receiver: PaymentCode) returns (b: bool)
      ensures b <==> !contract.readFails && sender in contract.Inbox(receiver)
    {
      var notifications := GetNotifications(receiver);
      b := Includes(notifications, sender);
    }

    /** `notify`: forwards the pair to the contract and hands back its
        transaction unchanged; a failure propagates. */
    method Notify(sender: PaymentCode, receiver: PaymentCode) returns (r: Result<NotifyTx, MailboxError>)
      modifies contract`inbox, contract`txCount, contract`delivered
      ensures contract.writeFails <==> r.Failure?
      ensures contract.writeFails ==> unchanged(contract)
      ensures !contract.writeFails ==>
        && r.value == NotifyTx(HashOf(old(contract.txCount)))
        && contract.inbox == old(contract.inbox)[receiver := old(contract.Inbox(receiver)) + [sender]]
        && contract.txCount == old(contract.txCount) + 1
        && contract.delivered == old(contract.delivered) + Dispatch(contract.listeners, sender, receiver)
    {
      r := contract.Notify(sender, receiver);
    }

    /** `onNotification`: attaches a listener that calls `callback` for the
        events its receiver filter lets through. */
    method OnNotification(receiver: Option<PaymentCode>, callback: CallbackId) returns (s: NotificationSubscription)
      requires contract.Valid()
      modifies contract`listeners, contract`nextListener
      ensures contract.Valid()
      ensures s.id !in ListenerIds(old(contract.listeners))
      ensures contract.listeners == old(contract.listeners) + [Listener(s.id, receiver, callback)]
    {
      var id := contract.On(receiver, callback);
      s := NotificationSubscription(id);
    }

    /** The function `onNotification` returns: detaches its listener. */
    method Unsubscribe(s: NotificationSubscription)
      requires contract.Valid()
      modifies contract`listeners
      ensures contract.Valid()
      ensures contract.listeners == RemoveListener(old(contract.listeners), s.id)
    {
      contract.Off(s.id);
    }
  }

  /** Whether a notification list records `sender`; the membership test
      `hasNotified` performs. */
  predicate Includes(notifications: seq<PaymentCode>, sender: PaymentCode) {
    sender in notifications
  }

  /** Appending a duplicate notification changes no answer of the membership
      test, and appending a new one changes only the answer for its sender. */
  lemma DuplicateNotificationsIgnored(notifications: seq<PaymentCode>, x: PaymentCode, y: PaymentCode)
    ensures Includes(notifications + [x], y) <==> Includes(notifications, y) || x == y
    ensures Includes(notifications, x) ==> (Includes(notifications + [x], y) <==> Includes(notifications, y))
  {
  }
}
