/** `QiAgentWallet` (src/wallet.ts): the agent-facing wallet. It keeps the
    senders it has learnt of, per-zone scan cursors, a polling timer and two
    callback lists, and drives the ledger wallet and the mailbox. The calls
    whose order matters (mailbox reads, notifies, channel opens, sender
    callbacks, scans and payments) are recorded in the ghost `trace`, so the
    order the source insists on (discovery before scanning, notify before
    paying) is stated against the functions of `WalletSpec`; balance and
    payment-code reads are not recorded. */
module Wallet {
  import opened Wrappers
  import opened Types
  import Denominations
  import opened Mailbox
  import opened QiWallet
  import opened WalletSpec

  datatype WalletError =
    | ScanFailed(zone: Zone)
    | ZoneUnavailable(zone: Zone)
    | NotifyFailed
    | TransferFailed

  /** The function an `on…` registration returns; `Unsubscribe` calls it. */
  datatype Subscription =
    | PaymentSubscription(callback: CallbackId)
    | SenderSubscription(callback: CallbackId)

  class QiAgentWallet {
    const qiWallet: QiHDWallet
    const mailbox: MailboxClient
    const config: ResolvedConfig

    /** The `Set` of known senders, in insertion order. */
    var knownSenders: seq<PaymentCode>
    var lastScannedBlocks: map<Zone, int>
    /** The running interval, by the period it was started with. */
    var pollingTimer: Option<int>
    var paymentCallbacks: seq<CallbackId>
    var senderCallbacks: seq<CallbackId>

    /** Intervals started and not yet cleared. */
    ghost var activeTimers: nat
    /** The calls made on the collaborators so far, oldest first. */
    ghost var trace: seq<Event>

    ghost predicate Valid()
      reads this
    {
      && NoDuplicates(knownSenders)
      && activeTimers == (if pollingTimer.Some? then 1 else 0)
    }

    constructor (qiWallet: QiHDWallet, mailbox: MailboxClient, config: ResolvedConfig)
      ensures Valid()
      ensures this.qiWallet == qiWallet && this.mailbox == mailbox && this.config == config
      ensures knownSenders == [] && lastScannedBlocks == map[] && pollingTimer == None
      ensures paymentCallbacks == [] && senderCallbacks == [] && trace == []
    {
      this.qiWallet := qiWallet;
      this.mailbox := mailbox;
      this.config := config;
      knownSenders := [];
      lastScannedBlocks := map[];
      pollingTimer := None;
      paymentCallbacks := [];
      senderCallbacks := [];
      activeTimers := 0;
      trace := [];
    }

    /** What `mailbox.getNotifications(getPaymentCode())` yields now. */
    function Notifications(): seq<PaymentCode>
      reads mailbox.contract
    {
      if mailbox.contract.readFails then [] else mailbox.contract.Inbox(qiWallet.paymentCode)
    }

    /** `fromMnemonic`: completes the configuration, connects a mailbox client
        to the contract at the configured address, and syncs the default
        zone; a failing scan makes the whole call fail. */
    static method FromMnemonic(qiWallet: QiHDWallet, contract: Registry, config: AgentConfig)
      returns (r: Result<QiAgentWallet, WalletError>)
      modifies qiWallet`channels, qiWallet`outpoints
      ensures var full := ResolveConfig(config);
        r.Failure? <==> full.defaultZone in qiWallet.scanFails
      ensures r.Failure? ==> r.error == ScanFailed(ResolveConfig(config).defaultZone)
      ensures var notes := if contract.readFails then [] else contract.Inbox(qiWallet.paymentCode);
        qiWallet.channels == old(qiWallet.channels) + OpenedChannels(NewSenders([], notes), qiWallet.malformed)
      ensures forall z :: z != ResolveConfig(config).defaultZone ==> qiWallet.OutpointsOf(z) == old(qiWallet.OutpointsOf(z))
      ensures r.Success? ==>
        var w: QiAgentWallet := r.value;
        var notes := if contract.readFails then [] else contract.Inbox(qiWallet.paymentCode);
        && fresh(w) && fresh(w.mailbox) && w.Valid()
        && w.qiWallet == qiWallet && w.mailbox.contract == contract
        && w.config == ResolveConfig(config) && w.mailbox.address == w.config.mailboxAddress
        && w.knownSenders == NewSenders([], notes)
        && w.lastScannedBlocks == map[] && w.pollingTimer == None
        && w.paymentCallbacks == [] && w.senderCallbacks == []
        && w.trace == SyncEvents(qiWallet.paymentCode, [], notes, qiWallet.malformed, [],
                                 w.config.defaultZone, true)
    {
      var full := ResolveConfig(config);
      var mb := new MailboxClient(full.mailboxAddress, contract);
      var w := new QiAgentWallet(qiWallet, mb, full);
      var synced := w.Sync(None);
      if synced.Failure? {
        return Failure(synced.error);
      }
      return Success(w);
    }

    /** `deserialize`: signs in as `fromMnemonic` does (sync included), then
        adds the snapshot's senders and copies its scan cursors. The ledger
        wallet and payment code recorded in the snapshot are not read back. */
    static method Deserialize(data: SerializedWallet, qiWallet: QiHDWallet, contract: Registry, config: AgentConfig)
      returns (r: Result<QiAgentWallet, WalletError>)
      modifies qiWallet`channels, qiWallet`outpoints
      ensures r.Failure? <==> ResolveConfig(config).defaultZone in qiWallet.scanFails
      ensures r.Failure? ==> r.error == ScanFailed(ResolveConfig(config).defaultZone)
      ensures var notes := if contract.readFails then [] else contract.Inbox(qiWallet.paymentCode);
        qiWallet.channels == old(qiWallet.channels) + OpenedChannels(NewSenders([], notes), qiWallet.malformed)
      ensures forall z :: z != ResolveConfig(config).defaultZone ==> qiWallet.OutpointsOf(z) == old(qiWallet.OutpointsOf(z))
      ensures r.Success? ==>
        var w: QiAgentWallet := r.value;
        var notes := if contract.readFails then [] else contract.Inbox(qiWallet.paymentCode);
        && fresh(w) && w.Valid()
        && w.qiWallet == qiWallet && w.mailbox.contract == contract && w.config == ResolveConfig(config)
        && w.mailbox.address == w.config.mailboxAddress
        && w.knownSenders == Restored(NewSenders([], notes), data.knownSenders)
        && (forall s :: s in data.knownSenders ==> s in w.knownSenders)
        && w.lastScannedBlocks == data.lastScannedBlocks
        && w.pollingTimer == None && w.paymentCallbacks == [] && w.senderCallbacks == []
        && w.trace == SyncEvents(qiWallet.paymentCode, [], notes, qiWallet.malformed, [],
                                 w.config.defaultZone, true)
    {
      r := FromMnemonic(qiWallet, contract, config);
      if r.Failure? {
        return;
      }
      var w: QiAgentWallet := r.value;
      w.Restore(data);
      assert map[] + data.lastScannedBlocks == data.lastScannedBlocks;
    }

    /** The restoring half of `deserialize`: the snapshot's senders join the
        known ones and its cursors override the ones held. */
    method Restore(data: SerializedWallet)
      requires Valid()
      modifies this`knownSenders, this`lastScannedBlocks
      ensures Valid()
      ensures knownSenders == Restored(old(knownSenders), data.knownSenders)
      ensures forall s :: s in data.knownSenders ==> s in knownSenders
      ensures lastScannedBlocks == old(lastScannedBlocks) + data.lastScannedBlocks
    {
      AddKnownSenders(data.knownSenders);
      NewSendersSpec(old(knownSenders), data.knownSenders);
      SetScannedBlocks(data.lastScannedBlocks);
    }

    /** `senders.forEach(s => knownSenders.add(s))`: each sender not yet
        known is added at the end, as a `Set` does. */
    method AddKnownSenders(senders: seq<PaymentCode>)
      requires Valid()
      modifies this`knownSenders
      ensures Valid()
      ensures knownSenders == Restored(old(knownSenders), senders)
    {
      var i := 0;
      while i < |senders|
        invariant 0 <= i <= |senders|
        invariant knownSenders == old(knownSenders) + NewSenders(old(knownSenders), senders[..i])
        invariant Valid()
      {
        var s := senders[i];
        assert senders[..i + 1] == senders[..i] + [s];
        if s !in knownSenders {
          knownSenders := knownSenders + [s];
        }
        i := i + 1;
      }
      assert senders[..i] == senders;
    }

    /** `Object.entries(blocks).forEach(([zone, block]) => lastScannedBlocks.set(zone, block))`:
        every cursor of `blocks` overrides the one held for its zone. */
    method SetScannedBlocks(blocks: map<Zone, int>)
      modifies this`lastScannedBlocks
      ensures lastScannedBlocks == old(lastScannedBlocks) + blocks
    {
      var pending := blocks.Keys;
      while pending != {}
        invariant pending <= blocks.Keys
        invariant lastScannedBlocks == old(lastScannedBlocks) + map z | z in blocks.Keys - pending :: blocks[z]
        decreases |pending|
      {
        var z :| z in pending;
        lastScannedBlocks := lastScannedBlocks[z := blocks[z]];
        pending := pending - {z};
      }
      assert (map z | z in blocks.Keys - {} :: blocks[z]) == blocks;
    }

    /** `serialize`: the snapshot of the wallet at time `now`. */
    method Serialize(now: int) returns (data: SerializedWallet)
      ensures data.wallet == qiWallet.serialized && data.paymentCode == qiWallet.paymentCode
      ensures data.knownSenders == knownSenders && data.lastScannedBlocks == lastScannedBlocks
      ensures data.createdAt == now && data.lastActivity == now
    {
      var blocks: map<Zone, int> := map[];
      var pending := lastScannedBlocks.Keys;
      while pending != {}
        invariant pending <= lastScannedBlocks.Keys
        invariant blocks == map z | z in lastScannedBlocks.Keys - pending :: lastScannedBlocks[z]
        decreases |pending|
      {
        var z :| z in pending;
        blocks := blocks[z := lastScannedBlocks[z]];
        pending := pending - {z};
      }
      data := SerializedWallet(qiWallet.serialized, GetPaymentCode(), knownSenders, blocks, now, now);
    }

    /** `getPaymentCode`: the code of account 0, the same for the wallet's
        whole life. */
    function GetPaymentCode(): (code: PaymentCode)
      ensures code == qiWallet.paymentCode
    {
      qiWallet.paymentCode
    }

    /** `getKnownSenders`: each known sender once, in the order learnt. */
    function GetKnownSenders(): (senders: seq<PaymentCode>)
      requires Valid()
      reads this
      ensures NoDuplicates(senders)
      ensures senders == knownSenders
    {
      knownSenders
    }

    /** `getBalance`: adds up the value of every output held in the zone,
        an index outside the table counting nothing; fails when the zone's
        outputs cannot be read. */
    method GetBalance(zone: Option<Zone>) returns (r: Result<ZoneBalance, WalletError>)
      ensures var z := zone.GetOr(config.defaultZone);
        && (r.Failure? <==> z in qiWallet.unavailable)
        && (r.Failure? ==> r.error == ZoneUnavailable(z))
        && (r.Success? ==>
              && r.value.zone == z
              && r.value.balance == Denominations.LenientSum(qiWallet.OutpointsOf(z))
              && r.value.utxoCount == |qiWallet.OutpointsOf(z)|
              && r.value.lockedBalance == 0)
    {
      var z := zone.GetOr(config.defaultZone);
      var outs := qiWallet.GetOutpoints(z);
      if outs.Failure? {
        return Failure(ZoneUnavailable(z));
      }
      var outpoints := outs.value;
      var balance: nat := 0;
      var lockedBalance: nat := 0;
      var i := 0;
      while i < |outpoints|
        invariant 0 <= i <= |outpoints|
        invariant balance == Denominations.LenientSum(outpoints[..i])
      {
        var denomIndex := outpoints[i];
        assert outpoints[..i + 1][..i] == outpoints[..i];
        balance := balance + (if Denominations.InRange(denomIndex) then Denominations.Table[denomIndex] else 0);
        i := i + 1;
      }
      assert outpoints[..i] == outpoints;
      return Success(ZoneBalance(z, balance, |outpoints|, lockedBalance));
    }

    /** `getTotalBalance`: the balances of the nine zones added up, a zone
        whose outputs cannot be read counting nothing. */
    method GetTotalBalance() returns (total: nat)
      ensures total == TotalOver(qiWallet.outpoints, qiWallet.unavailable, AllZones)
    {
      total := 0;
      var i := 0;
      while i < |AllZones|
        invariant 0 <= i <= |AllZones|
        invariant total == TotalOver(qiWallet.outpoints, qiWallet.unavailable, AllZones[..i])
      {
        assert AllZones[..i + 1][..i] == AllZones[..i];
        var b := GetBalance(Some(AllZones[i]));
        if b.Success? {
          total := total + b.value.balance;
        }
        i := i + 1;
      }
      assert AllZones[..i] == AllZones;
    }

    /** `discoverSenders`: reads the mailbox and, for every listed sender not
        yet known, records it, tries to open its payment channel and calls
        every sender callback; returns the new senders. */
    method DiscoverSenders() returns (newSenders: seq<PaymentCode>)
      requires Valid()
      modifies this`knownSenders, this`trace, qiWallet`channels
      ensures Valid()
      ensures newSenders == NewSenders(old(knownSenders), Notifications())
      ensures knownSenders == old(knownSenders) + newSenders
      ensures qiWallet.channels == old(qiWallet.channels) + OpenedChannels(newSenders, qiWallet.malformed)
      ensures trace == old(trace) + [QueryMailbox(qiWallet.paymentCode)]
                       + DiscoverEvents(newSenders, qiWallet.malformed, senderCallbacks)
    {
      var myPaymentCode := GetPaymentCode();
      trace := trace + [QueryMailbox(myPaymentCode)];
      var notifications := mailbox.GetNotifications(myPaymentCode);
      ghost var known0, channels0, trace0 := knownSenders, qiWallet.channels, trace;
      newSenders := [];
      var i := 0;
      while i < |notifications|
        invariant 0 <= i <= |notifications|
        invariant newSenders == NewSenders(known0, notifications[..i])
        invariant knownSenders == known0 + newSenders
        invariant qiWallet.channels == channels0 + OpenedChannels(newSenders, qiWallet.malformed)
        invariant trace == trace0 + DiscoverEvents(newSenders, qiWallet.malformed, senderCallbacks)
        invariant Valid()
      {
        var senderPC := notifications[i];
        assert notifications[..i + 1] == notifications[..i] + [senderPC];
        DiscoverStep(known0, notifications[..i], senderPC, qiWallet.malformed, senderCallbacks);
        if senderPC !in knownSenders {
          ghost var ns := newSenders;
          LearnSender(senderPC);
          newSenders := newSenders + [senderPC];
          AppendAssoc(known0, ns, [senderPC]);
          AppendAssoc(trace0, DiscoverEvents(ns, qiWallet.malformed, senderCallbacks),
                      SenderEvents(senderPC, qiWallet.malformed, senderCallbacks));
          assert qiWallet.channels == channels0 + (OpenedChannels(ns, qiWallet.malformed)
                                                   + (if senderPC in qiWallet.malformed then {} else {senderPC}));
        }
        i := i + 1;
      }
      assert notifications[..i] == notifications;
    }

    /** What `discoverSenders` does for a sender it has not seen: records
        it, tries to open its channel (a failure is only logged), and calls
        the sender callbacks. */
    method LearnSender(senderPC: PaymentCode)
      requires Valid() && senderPC !in knownSenders
      modifies this`knownSenders, this`trace, qiWallet`channels
      ensures Valid()
      ensures knownSenders == old(knownSenders) + [senderPC]
      ensures qiWallet.channels == old(qiWallet.channels) + (if senderPC in qiWallet.malformed then {} else {senderPC})
      ensures trace == old(trace) + SenderEvents(senderPC, qiWallet.malformed, senderCallbacks)
    {
      knownSenders := knownSenders + [senderPC];
      var isOpen := qiWallet.OpenChannel(senderPC);
      trace := trace + [OpenChannel(senderPC, isOpen)];
      CallSenderCallbacks(senderPC);
    }

    /** The inner loop of `discoverSenders`: calls every sender callback, in
        registration order, with the new sender; a callback that throws does
        not stop the others. */
    method CallSenderCallbacks(senderPC: PaymentCode)
      modifies this`trace
      ensures trace == old(trace) + CallbackEvents(senderCallbacks, senderPC)
    {
      var j := 0;
      while j < |senderCallbacks|
        invariant 0 <= j <= |senderCallbacks|
        invariant trace == old(trace) + CallbackEvents(senderCallbacks[..j], senderPC)
      {
        assert CallbackEvents(senderCallbacks[..j + 1], senderPC)
            == CallbackEvents(senderCallbacks[..j], senderPC) + [SenderCallback(senderCallbacks[j], senderPC)];
        trace := trace + [SenderCallback(senderCallbacks[j], senderPC)];
        j := j + 1;
      }
      assert senderCallbacks[..j] == senderCallbacks;
    }

    /** `sync`: discovery first, so that the channels of new senders are open
        when the zone is scanned; a failing scan is the sync's failure. */
    method Sync(zone: Option<Zone>) returns (r: Result<(), WalletError>)
      requires Valid()
      modifies this`knownSenders, this`trace, qiWallet`channels, qiWallet`outpoints
      ensures Valid()
      ensures var z := zone.GetOr(config.defaultZone);
        && (r.Failure? <==> z in qiWallet.scanFails)
        && (r.Failure? ==> r.error == ScanFailed(z))
        && knownSenders == old(knownSenders) + NewSenders(old(knownSenders), Notifications())
        && qiWallet.channels == old(qiWallet.channels)
             + OpenedChannels(NewSenders(old(knownSenders), Notifications()), qiWallet.malformed)
        && (forall other :: other != z ==> qiWallet.OutpointsOf(other) == old(qiWallet.OutpointsOf(other)))
        && trace == old(trace) + SyncEvents(qiWallet.paymentCode, old(knownSenders), Notifications(),
                                           qiWallet.malformed, senderCallbacks, z, z !in qiWallet.scanFails)
    {
      var z := zone.GetOr(config.defaultZone);
      var newSenders := DiscoverSenders();
      var ok := qiWallet.Scan(z);
      trace := trace + [Scan(z, ok)];
      if !ok {
        return Failure(ScanFailed(z));
      }
      return Success(());
    }

    /** `send`: notifies the recipient through the mailbox unless this
        wallet's code is already in the recipient's list, then submits the
        payment. A failed notify ends the call before the payment; a failed
        payment after a successful notify loses the notify's hash. */
    method Send(recipient: PaymentCode, amount: int, originZone: Option<Zone>, destinationZone: Option<Zone>, now: int)
      returns (r: Result<PaymentSent, WalletError>)
      modifies this`trace, qiWallet`sentCount
      modifies mailbox.contract`inbox, mailbox.contract`txCount, mailbox.contract`delivered
      ensures var myCode := qiWallet.paymentCode;
        var origin := originZone.GetOr(config.defaultZone);
        var destination := destinationZone.GetOr(origin);
        var already := !mailbox.contract.readFails && myCode in old(mailbox.contract.Inbox(recipient));
        var notifyOk := !mailbox.contract.writeFails;
        && trace == old(trace) + SendEvents(myCode, recipient, amount, origin, destination,
                                           already, notifyOk, !qiWallet.sendFails)
        && (already || !notifyOk ==>
              mailbox.contract.inbox == old(mailbox.contract.inbox)
              && mailbox.contract.txCount == old(mailbox.contract.txCount)
              && mailbox.contract.delivered == old(mailbox.contract.delivered))
        && (!already && notifyOk ==>
              mailbox.contract.inbox == old(mailbox.contract.inbox)[recipient := old(mailbox.contract.Inbox(recipient)) + [myCode]]
              && mailbox.contract.txCount == old(mailbox.contract.txCount) + 1
              && mailbox.contract.delivered == old(mailbox.contract.delivered)
                                               + Dispatch(mailbox.contract.listeners, myCode, recipient))
        && (!already && !notifyOk ==> r == Failure(NotifyFailed) && qiWallet.sentCount == old(qiWallet.sentCount))
        && ((already || notifyOk) && qiWallet.sendFails ==>
              r == Failure(TransferFailed) && qiWallet.sentCount == old(qiWallet.sentCount))
        && ((already || notifyOk) && !qiWallet.sendFails ==>
              qiWallet.sentCount == old(qiWallet.sentCount) + 1
              && r == Success(PaymentSent(amount, recipient, HashOf(old(qiWallet.sentCount)),
                                          if already then "" else HashOf(old(mailbox.contract.txCount)),
                                          origin, destination, now)))
        && (r.Success? ==> (r.value.notifyTxHash == "" <==> already))
    {
      var origin := originZone.GetOr(config.defaultZone);
      var destination := destinationZone.GetOr(origin);
      var myPaymentCode := GetPaymentCode();
      trace := trace + [QueryMailbox(recipient)];
      var alreadyNotified := mailbox.HasNotified(myPaymentCode, recipient);
      var notifyTxHash := "";
      if !alreadyNotified {
        var notifyTx := mailbox.Notify(myPaymentCode, recipient);
        trace := trace + [Notify(myPaymentCode, recipient, notifyTx.Success?)];
        if notifyTx.Failure? {
          return Failure(NotifyFailed);
        }
        notifyTxHash := notifyTx.value.hash;
      }
      var txResponse := qiWallet.SendTransaction(recipient, amount, origin, destination);
      trace := trace + [SendTransaction(recipient, amount, origin, destination, txResponse.Success?)];
      if txResponse.Failure? {
        return Failure(TransferFailed);
      }
      return Success(PaymentSent(amount, recipient, txResponse.value, notifyTxHash, origin, destination, now));
    }

    /** `onPaymentReceived`: registers the callback at the end of the list. */
    method OnPaymentReceived(callback: CallbackId) returns (h: Subscription)
      modifies this`paymentCallbacks
      ensures paymentCallbacks == old(paymentCallbacks) + [callback]
      ensures h == PaymentSubscription(callback)
    {
      paymentCallbacks := paymentCallbacks + [callback];
      h := PaymentSubscription(callback);
    }

    /** `onSenderDiscovered`: registers the callback at the end of the list. */
    method OnSenderDiscovered(callback: CallbackId) returns (h: Subscription)
      modifies this`senderCallbacks
      ensures senderCallbacks == old(senderCallbacks) + [callback]
      ensures h == SenderSubscription(callback)
    {
      senderCallbacks := senderCallbacks + [callback];
      h := SenderSubscription(callback);
    }

    /** Calling the function a registration returned: removes the first
        registration of its callback from its own list, if any is left. */
    method Unsubscribe(h: Subscription)
      modifies this`paymentCallbacks, this`senderCallbacks
      ensures h.PaymentSubscription? ==>
        paymentCallbacks == RemoveFirst(old(paymentCallbacks), h.callback) && senderCallbacks == old(senderCallbacks)
      ensures h.SenderSubscription? ==>
        senderCallbacks == RemoveFirst(old(senderCallbacks), h.callback) && paymentCallbacks == old(paymentCallbacks)
    {
      if h.PaymentSubscription? {
        paymentCallbacks := Spliced(paymentCallbacks, h.callback);
      } else {
        senderCallbacks := Spliced(senderCallbacks, h.callback);
      }
    }

    /** `startPolling`: replaces any running interval by one with the given
        period (the configured one by default), so at most one runs. */
    method StartPolling(interval: Option<int>)
      requires Valid()
      modifies this`pollingTimer, this`activeTimers
      ensures Valid()
      ensures pollingTimer == Some(interval.GetOr(config.pollingInterval))
      ensures activeTimers == 1
    {
      if pollingTimer.Some? {
        StopPolling();
      }
      pollingTimer := Some(interval.GetOr(config.pollingInterval));
      activeTimers := activeTimers + 1;
    }

    /** `stopPolling`: clears the running interval; without one it does
        nothing. */
    method StopPolling()
      requires Valid()
      modifies this`pollingTimer, this`activeTimers
      ensures Valid()
      ensures pollingTimer == None && activeTimers == 0
    {
      if pollingTimer.Some? {
        activeTimers := activeTimers - 1;
        pollingTimer := None;
      }
    }
  }

  /** The handle's body: look the callback up with `indexOf` and, when it is
      there, `splice` that one position out; this removes exactly the first
      registration `RemoveFirst` describes. */
  method Spliced(list: seq<CallbackId>, callback: CallbackId) returns (rest: seq<CallbackId>)
    ensures rest == RemoveFirst(list, callback)
  {
    var idx := IndexOf(list, callback);
    rest := list;
    if idx >= 0 {
      rest := list[..idx] + list[idx + 1..];
    }
    RemoveFirstSplices(list, callback);
  }

  /** A snapshot written by `serialize` and read back by `deserialize` with
      the same mnemonic and mailbox. The mnemonic gives a new ledger wallet
      `nw`, with no channel open, whose payment code is the old one. The
      scan cursors come back exactly and every known sender comes back,
      once; the only other senders are those the sign-in sync found in the
      mailbox, and when it finds none the sender list comes back in its
      original order. Only the senders that sync found get channels, so
      senders known from the snapshot alone have none. The old wallet's
      ledger state is not touched. */
  method SnapshotRoundTrip(w: QiAgentWallet, nw: QiHDWallet, config: AgentConfig, now: int)
    returns (restored: Result<QiAgentWallet, WalletError>)
    requires w.Valid()
    requires nw != w.qiWallet && nw.paymentCode == w.qiWallet.paymentCode && nw.channels == {}
    modifies nw`channels, nw`outpoints
    ensures restored.Failure? <==> ResolveConfig(config).defaultZone in nw.scanFails
    ensures w.qiWallet.channels == old(w.qiWallet.channels) && w.qiWallet.outpoints == old(w.qiWallet.outpoints)
    ensures restored.Success? ==>
      var v: QiAgentWallet := restored.value;
      var notes := w.Notifications();
      && v.qiWallet == nw && v.GetPaymentCode() == w.GetPaymentCode()
      && v.qiWallet.channels == OpenedChannels(NewSenders([], notes), nw.malformed)
      && v.lastScannedBlocks == w.lastScannedBlocks
      && NoDuplicates(v.knownSenders)
      && (forall s :: s in w.knownSenders ==> s in v.knownSenders)
      && (forall s :: s in v.knownSenders ==> s in w.knownSenders || s in notes)
      && (notes == [] ==> v.knownSenders == w.knownSenders)
  {
    var data := w.Serialize(now);
    restored := QiAgentWallet.Deserialize(data, nw, w.mailbox.contract, config);
    if restored.Success? {
      var notes := w.Notifications();
      NewSendersSpec([], notes);
      RestoreRoundTrip(NewSenders([], notes), data.knownSenders);
    }
  }

  /** Paying the same recipient twice notifies it once: the first send puts
      this wallet's code in the recipient's list, so the second finds it
      there and goes straight to the payment. */
  method SendTwiceNotifiesOnce(w: QiAgentWallet, recipient: PaymentCode, amount: int, now: int)
    returns (first: Result<PaymentSent, WalletError>, second: Result<PaymentSent, WalletError>)
    requires !w.mailbox.contract.readFails && !w.mailbox.contract.writeFails && !w.qiWallet.sendFails
    modifies w`trace, w.qiWallet`sentCount
    modifies w.mailbox.contract`inbox, w.mailbox.contract`txCount, w.mailbox.contract`delivered
    ensures first.Success? && second.Success?
    ensures second.value.notifyTxHash == ""
    ensures CountNotifies(w.trace) == old(CountNotifies(w.trace))
                                      + (if w.qiWallet.paymentCode in old(w.mailbox.contract.Inbox(recipient)) then 0 else 1)
  {
    var code := w.qiWallet.paymentCode;
    var origin := w.config.defaultZone;
    ghost var t0 := w.trace;
    ghost var already := code in w.mailbox.contract.Inbox(recipient);
    first := w.Send(recipient, amount, None, None, now);
    ghost var t1 := w.trace;
    ghost var se1 := SendEvents(code, recipient, amount, origin, origin, already, true, true);
    assert t1 == t0 + se1;
    assert code in w.mailbox.contract.Inbox(recipient);
    second := w.Send(recipient, amount, None, None, now);
    ghost var se2 := SendEvents(code, recipient, amount, origin, origin, true, true, true);
    assert w.trace == t1 + se2;
    CountNotifiesOfSend(code, recipient, amount, origin, origin, already, true, true);
    CountNotifiesOfSend(code, recipient, amount, origin, origin, true, true, true);
    CountNotifiesAppend(t0, se1);
    CountNotifiesAppend(t1, se2);
  }

  /** A second discovery pass over an unchanged mailbox finds nothing, opens
      nothing and calls no callback. */
  method DiscoverTwice(w: QiAgentWallet) returns (first: seq<PaymentCode>, second: seq<PaymentCode>)
    requires w.Valid()
    modifies w`knownSenders, w`trace, w.qiWallet`channels
    ensures w.Valid()
    ensures first == NewSenders(old(w.knownSenders), w.Notifications())
    ensures second == []
    ensures w.knownSenders == old(w.knownSenders) + first
    ensures w.qiWallet.channels == old(w.qiWallet.channels) + OpenedChannels(first, w.qiWallet.malformed)
    ensures w.trace == old(w.trace) + [QueryMailbox(w.qiWallet.paymentCode)]
                       + DiscoverEvents(first, w.qiWallet.malformed, w.senderCallbacks)
                       + [QueryMailbox(w.qiWallet.paymentCode)]
  {
    first := w.DiscoverSenders();
    ghost var t1 := w.trace;
    second := w.DiscoverSenders();
    RediscoveryFindsNothing(old(w.knownSenders), w.Notifications());
    assert w.trace == t1 + [QueryMailbox(w.qiWallet.paymentCode)];
  }
}
