/** The `QiHDWallet` of the ledger library, seen only through the calls the
    agent wallet makes on it. Key derivation, channel secrets, address
    scanning and transaction building happen inside it and are not modelled;
    what stays is what each call reports and the state the agent wallet reads
    back. */
module QiWallet {
  import opened Wrappers
  import opened Types

  datatype QiError = UnavailableZone(zone: Zone) | TransferError

  class QiHDWallet {
    /** `getPaymentCode(0)`: fixed by the mnemonic. */
    const paymentCode: PaymentCode
    /** `JSON.stringify(serialize())`, opaque. */
    const serialized: string
    /** Counterparty codes that `openChannel` rejects (malformed codes). */
    const malformed: set<PaymentCode>
    /** Zones whose `getOutpoints` throws. */
    const unavailable: set<Zone>
    /** Zones whose `scan` throws. */
    const scanFails: set<Zone>
    /** Whether `sendTransaction` throws (insufficient funds, rejected). */
    const sendFails: bool

    /** Counterparties whose payment channel is open. */
    var channels: set<PaymentCode>
    /** Per zone, the denomination indices of the outputs the wallet holds. */
    var outpoints: map<Zone, seq<int>>
    /** Transactions submitted so far. */
    var sentCount: nat

    constructor (paymentCode: PaymentCode, serialized: string, malformed: set<PaymentCode>,
                 unavailable: set<Zone>, scanFails: set<Zone>, sendFails: bool,
                 outpoints: map<Zone, seq<int>>)
      ensures this.paymentCode == paymentCode && this.serialized == serialized
      ensures this.malformed == malformed && this.unavailable == unavailable
      ensures this.scanFails == scanFails && this.sendFails == sendFails
      ensures this.outpoints == outpoints && channels == {} && sentCount == 0
    {
      this.paymentCode := paymentCode;
      this.serialized := serialized;
      this.malformed := malformed;
      this.unavailable := unavailable;
      this.scanFails := scanFails;
      this.sendFails := sendFails;
      this.outpoints := outpoints;
      channels := {};
      sentCount := 0;
    }

    /** The denomination indices `getOutpoints(zone)` lists, when it does not throw. */
    function OutpointsOf(zone: Zone): seq<int>
      reads this
    {
      OutpointsIn(outpoints, zone)
    }

    /** `getOutpoints(zone)`. */
    method GetOutpoints(zone: Zone) returns (r: Result<seq<int>, QiError>)
      ensures zone in unavailable <==> r.Failure?
      ensures r.Success? ==> r.value == OutpointsOf(zone)
    {
      if zone in unavailable {
        return Failure(UnavailableZone(zone));
      }
      return Success(OutpointsOf(zone));
    }

    /** `openChannel(code)`: opens the channel unless the code is malformed;
        opening an open channel changes nothing. */
    method OpenChannel(code: PaymentCode) returns (isOpen: bool)
      modifies this`channels
      ensures isOpen <==> code !in malformed
      ensures channels == if isOpen then old(channels) + {code} else old(channels)
    {
      isOpen := code !in malformed;
      if isOpen {
        channels := channels + {code};
      }
    }

    /** `scan(zone)`: walks the addresses of the open channels; it may change
        the outputs held in `zone` and no others. */
    method Scan(zone: Zone) returns (ok: bool)
      modifies this`outpoints
      ensures ok <==> zone !in scanFails
      ensures forall z :: z != zone ==> OutpointsOf(z) == old(OutpointsOf(z))
    {
      ok := zone !in scanFails;
    }

    /** `sendTransaction(recipient, amount, origin, destination)`. */
    method SendTransaction(recipient: PaymentCode, amount: int, origin: Zone, destination: Zone)
      returns (r: Result<TxHash, QiError>)
      modifies this`sentCount
      ensures sendFails <==> r.Failure?
      ensures sendFails ==> sentCount == old(sentCount)
      ensures !sendFails ==> r.value == HashOf(old(sentCount)) && sentCount == old(sentCount) + 1
    {
      if sendFails {
        return Failure(TransferError);
      }
      r := Success(HashOf(sentCount));
      sentCount := sentCount + 1;
    }
  }
}
