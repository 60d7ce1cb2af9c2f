/** The records of src/types.ts, the zones of the Quai network and the
    network presets that configuration resolution reads. */
module Types {
  import opened Wrappers

  /** A BIP 47 payment code, as the text the wallet publishes. */
  type PaymentCode = string

  /** A transaction hash as returned by the ledger. */
  type TxHash = string

  /** The nine shards of the ledger; `getTotalBalance` visits them in this order. */
  datatype Zone =
    | Cyprus1 | Cyprus2 | Cyprus3
    | Paxos1 | Paxos2 | Paxos3
    | Hydra1 | Hydra2 | Hydra3

  const AllZones: seq<Zone> :=
    [Cyprus1, Cyprus2, Cyprus3, Paxos1, Paxos2, Paxos3, Hydra1, Hydra2, Hydra3]

  /** The outputs a per-zone table records for `zone`; none when it has no entry. */
  function OutpointsIn<T>(outpoints: map<Zone, seq<T>>, zone: Zone): seq<T> {
    if zone in outpoints then outpoints[zone] else []
  }

  datatype Network = Mainnet | Orchard | Local

  /** One entry of `NETWORK_CONFIGS`. */
  datatype NetworkPreset = NetworkPreset(rpcUrl: string, wsUrl: string, mailboxAddress: string)

  const MailboxDeployment: string := "0x004C82298b3ED69a949008d7037918B13A4260c5"

  function Preset(network: Network): (p: NetworkPreset)
    ensures network != Local ==> p.mailboxAddress == MailboxDeployment
    ensures (p.mailboxAddress == "") == (network == Local)
    ensures p.rpcUrl != "" && p.wsUrl != ""
  {
    match network
    case Mainnet => NetworkPreset("https://rpc.quai.network", "wss://rpc.quai.network", MailboxDeployment)
    case Orchard => NetworkPreset("https://orchard.rpc.quai.network", "wss://orchard.rpc.quai.network", MailboxDeployment)
    case Local => NetworkPreset("http://localhost:8610", "ws://localhost:8610", "")
  }

  /** `QiAgentConfig`: every field optional. */
  datatype AgentConfig = AgentConfig(
    rpcUrl: Option<string>,
    wsUrl: Option<string>,
    network: Option<Network>,
    mailboxAddress: Option<string>,
    pollingInterval: Option<int>,
    defaultZone: Option<Zone>)

  /** `Required<QiAgentConfig>`: the configuration after defaults are applied. */
  datatype ResolvedConfig = ResolvedConfig(
    rpcUrl: string,
    wsUrl: string,
    network: Network,
    mailboxAddress: string,
    pollingInterval: int,
    defaultZone: Zone)

  /** `SerializedWallet`: the persisted snapshot of a wallet. */
  datatype SerializedWallet = SerializedWallet(
    wallet: string,
    paymentCode: PaymentCode,
    knownSenders: seq<PaymentCode>,
    lastScannedBlocks: map<Zone, int>,
    createdAt: int,
    lastActivity: int)

  /** `PaymentSent`: the receipt `send` returns. */
  datatype PaymentSent = PaymentSent(
    amount: int,
    recipientPaymentCode: PaymentCode,
    qiTxHash: TxHash,
    notifyTxHash: TxHash,
    originZone: Zone,
    destinationZone: Zone,
    timestamp: int)

  /** `ZoneBalance`, amounts in Qit. */
  datatype ZoneBalance = ZoneBalance(zone: Zone, balance: nat, utxoCount: nat, lockedBalance: nat)

  /** The text of a natural number in decimal. */
  function Decimal(n: nat): (d: string)
    ensures |d| >= 1
    ensures forall k :: 0 <= k < |d| ==> '0' <= d[k] <= '9'
    decreases n
  {
    if n < 10 then [(48 + n) as char] else Decimal(n / 10) + [(48 + n % 10) as char]
  }

  /** The hash the ledger gives the n-th transaction a collaborator submits;
      hashes are opaque to the wallet, which only passes them on. */
  function HashOf(n: nat): (h: TxHash)
    ensures |h| >= 3 && h[..2] == "0x"
  {
    "0x" + Decimal(n)
  }
}
