/**
 Tickets and money: escrow, balances, ticket devices, and the token transfers that the contract
 has started. A result of `None` is a panic. Signatures, clock and storage headroom are arguments:
 `sigOk` says that a signature verified, `runwayOk` that the storage check after the writes held.
 */
module Ledger {
  import opened Common
  import opened Governance
  import opened Money
  import opened Catalog

  const SIGNATURE_TTL_MS: nat := 3_600_000
  const REFUND_SIGNATURE_TTL_MS: nat := 604_800_000 // seven days
  const ESCROW_MS: nat := 2_592_000_000 // thirty days
  const DEVICE_LIFETIME_MS: nat := 2_592_000_000 // thirty days
  const MAX_DEVICES: nat := 3
  const MAX_RELEASE_BATCH: nat := 25

  datatype Rail = Crypto | Card

  datatype TicketStatus = Purchased | Watched | Refunded | Released | Voided | WatchedInEscrow

  datatype Device = Device(key: string, certificate: string, authorizedAt: nat, expiresAt: nat)

  datatype CardData = CardData(reference: string, grossMinor: nat, currency: string)

  datatype Ticket = Ticket(
    key: string,
    publicationId: Id,
    creator: AccountId,
    rail: Rail,
    status: TicketStatus,
    gross: nat,
    split: Split,
    vatKeyVersion: nat,
    purchasedAt: nat,
    deviceEpoch: nat,
    devices: seq<Device>,
    card: Option<CardData>)

  datatype Purpose =
    | CreatorPayout(creator: AccountId)
    | PlatformPayout
    | TaxPayout
    | TicketRefund(ticketId: Id, restore: TicketStatus)
    | NearPayout

  /** `Lost` would be a failed transfer whose callback panicked instead of restoring the amount. */
  datatype Fate = Pending | Paid | Returned | Lost

  datatype Transfer = Transfer(purpose: Purpose, receiver: AccountId, amount: nat, fate: Fate)

  /**
   The contract's own fields, and what the outside world has seen: tokens received and kept,
   the job fees among them, and every transfer ever started.
   */
  datatype Ledger = Ledger(
    tickets: map<Id, Ticket>,
    cardReferences: set<string>,
    escrow: nat,
    tax: nat,
    platform: nat,
    creators: map<AccountId, nat>,
    platformNear: nat,
    received: nat,
    fees: nat,
    nearFees: nat,
    transfers: seq<Transfer>)

  const EMPTY_LEDGER: Ledger := Ledger(map[], {}, 0, 0, 0, map[], 0, 0, 0, 0, [])

  /** `checked_add` on 128 bits. */
  function Add(a: nat, b: nat): Option<nat> {
    if a + b <= U128_MAX then Some(a + b) else None
  }

  /** `parse_signature_expiry_within`, after the text is read as a number. */
  predicate InTime(expires: nat, now: nat, ttl: nat) {
    now < expires <= now + ttl && expires <= U64_MAX
  }

  // ---------------------------------------------------------------- devices

  /** The devices that `add_device` retains: unexpired, and not the one being renewed. */
  function Live(ds: seq<Device>, now: nat, except: string): seq<Device> {
    if ds == [] then []
    else (if ds[0].expiresAt > now && ds[0].key != except then [ds[0]] else []) + Live(ds[1..], now, except)
  }

  function Without(ds: seq<Device>, key: string): seq<Device> {
    if ds == [] then [] else (if ds[0].key != key then [ds[0]] else []) + Without(ds[1..], key)
  }

  function NewDevice(key: string, certificate: string, now: nat): Device {
    Device(key, certificate, now, now + DEVICE_LIFETIME_MS)
  }

  /** A fourth device drops the oldest and advances the epoch. */
  function WithDevice(t: Ticket, key: string, certificate: string, now: nat): Option<Ticket> {
    var live := Live(t.devices, now, key);
    var full := |live| == MAX_DEVICES;
    if (full && t.deviceEpoch == U32_MAX) || now + DEVICE_LIFETIME_MS > U64_MAX then None
    else Some(t.(
        devices := (if full then live[1..] else live) + [NewDevice(key, certificate, now)],
        deviceEpoch := if full then t.deviceEpoch + 1 else t.deviceEpoch))
  }

  function WithoutDevice(t: Ticket, key: string): Option<Ticket> {
    if t.deviceEpoch == U32_MAX then None
    else Some(t.(devices := Without(t.devices, key), deviceEpoch := t.deviceEpoch + 1))
  }

  // ---------------------------------------------------------------- purchase

  datatype Purchase = Purchase(
    ticketId: Id,
    ticketKey: string,
    publicationId: Id,
    deviceKey: string,
    certificate: string,
    deviceExpires: nat,
    deviceSigOk: bool,
    vat: nat,
    vatKeyVersion: nat,
    vatExpires: nat,
    vatSigOk: bool,
    wellFormed: bool)

  /** A purchase sells a ticket, or returns the whole amount. */
  datatype Sale = Sold(ledger: Ledger) | NotSold

  /** `buy_ticket_v2` */
  function Buy(l: Ledger, c: Catalog, g: Gov, now: nat, amount: nat, p: Purchase, runwayOk: bool): Option<Sale> {
    if !p.wellFormed || !InTime(p.deviceExpires, now, SIGNATURE_TTL_MS) || !InTime(p.vatExpires, now, SIGNATURE_TTL_MS) then None
    else if p.vat > U128_MAX || p.vatKeyVersion > U32_MAX then None
    else if g.pause.closed then Some(NotSold)
    else if p.publicationId !in c.publications then None
    else
      var pub := c.publications[p.publicationId];
      if pub.availability != Active || amount != pub.price || p.ticketId in l.tickets then Some(NotSold)
      else if !p.deviceSigOk || p.vatKeyVersion !in g.vatKeys || !p.vatSigOk then None
      else
        var split := SplitTicket(amount, p.vat);
        if split.None? || now + DEVICE_LIFETIME_MS > U64_MAX || Add(l.escrow, amount).None? || !runwayOk then None
        else
          var t := Ticket(p.ticketKey, p.publicationId, pub.creator, Crypto, Purchased, amount, split.value, p.vatKeyVersion,
                          now, 0, [NewDevice(p.deviceKey, p.certificate, now)], None);
          Some(Sold(l.(tickets := l.tickets[p.ticketId := t], escrow := l.escrow + amount, received := l.received + amount)))
  }

  /** The fee of a new USDC job; the platform balance may overflow. */
  function CreditFee(l: Ledger, amount: nat): Option<Ledger> {
    if Add(l.platform, amount).None? then None
    else Some(l.(platform := l.platform + amount, received := l.received + amount, fees := l.fees + amount))
  }

  function CreditNearFee(l: Ledger, deposit: nat): Option<Ledger> {
    if Add(l.platformNear, deposit).None? then None
    else Some(l.(platformNear := l.platformNear + deposit, nearFees := l.nearFees + deposit))
  }

  // ---------------------------------------------------------------- watching, refund, release

  function MarkWatched(l: Ledger, c: Catalog, g: Gov, caller: AccountId, id: Id): Option<Ledger> {
    if !IsBridge(g, caller) || id !in l.tickets then None
    else
      var t := l.tickets[id];
      match t.status
      case Watched => Some(l)
      case WatchedInEscrow => Some(l)
      case Released => Some(l)
      case Refunded => None
      case Voided => None
      case Purchased =>
        if t.publicationId !in c.publications || TakenDown(c, t.publicationId) then None
        else Some(l.(tickets := l.tickets[id := t.(status := if t.rail.Crypto? then WatchedInEscrow else Watched)]))
  }

  /** The ticket's gross amount is still in escrow. */
  predicate InEscrow(t: Ticket) {
    t.rail.Crypto? && (t.status.Purchased? || t.status.WatchedInEscrow?)
  }

  /**
   Who may refund an in-escrow ticket, and when: the payment operator during the escrow period
   and while purchases are not paused; anybody at any time after a takedown.
   */
  predicate RefundOpen(t: Ticket, c: Catalog, g: Gov, now: nat, caller: AccountId) {
    TakenDown(c, t.publicationId)
    || (caller == g.roles.operator && !g.pause.closed && t.purchasedAt + ESCROW_MS <= U64_MAX && now < t.purchasedAt + ESCROW_MS)
  }

  function StartRefund(l: Ledger, id: Id, refundTo: AccountId): Ledger
    requires id in l.tickets && l.tickets[id].gross <= l.escrow
  {
    var t := l.tickets[id];
    l.(tickets := l.tickets[id := t.(status := Refunded)],
       escrow := l.escrow - t.gross,
       transfers := l.transfers + [Transfer(TicketRefund(id, t.status), refundTo, t.gross, Pending)])
  }

  function Refund(l: Ledger, c: Catalog, g: Gov, now: nat, caller: AccountId, id: Id, refundTo: AccountId, expires: nat, sigOk: bool)
    : Option<Ledger>
  {
    if id !in l.tickets then None
    else
      var t := l.tickets[id];
      if !InEscrow(t) || !RefundOpen(t, c, g, now, caller) || !InTime(expires, now, REFUND_SIGNATURE_TTL_MS) || !sigOk then None
      else if l.escrow < t.gross then None
      else Some(StartRefund(l, id, refundTo))
  }

  predicate ReleaseOpen(t: Ticket, c: Catalog, now: nat) {
    InEscrow(t) && now >= t.purchasedAt + ESCROW_MS && !TakenDown(c, t.publicationId)
  }

  /** `settle_ticket`: the whole gross amount leaves escrow in three shares. */
  function Settle(l: Ledger, id: Id): Option<Ledger>
    requires id in l.tickets
  {
    var t := l.tickets[id];
    if l.escrow < t.gross || Add(l.tax, t.split.vat).None? || Add(l.platform, t.split.platform).None?
       || Add(Lookup(l.creators, t.creator), t.split.creator).None? then None
    else Some(l.(
        tickets := l.tickets[id := t.(status := Released)],
        escrow := l.escrow - t.gross,
        tax := l.tax + t.split.vat,
        platform := l.platform + t.split.platform,
        creators := l.creators[t.creator := Lookup(l.creators, t.creator) + t.split.creator]))
  }

  /** One turn of the loop in `release_expired`; ineligible names are skipped. */
  function ReleaseOne(l: Ledger, c: Catalog, now: nat, id: Id): Option<Ledger> {
    if id !in l.tickets then Some(l)
    else
      var t := l.tickets[id];
      if t.purchasedAt + ESCROW_MS > U64_MAX then None
      else if !ReleaseOpen(t, c, now) then Some(l)
      else Settle(l, id)
  }

  function ReleaseAll(l: Ledger, c: Catalog, now: nat, ids: seq<Id>): Option<Ledger> {
    if ids == [] then Some(l)
    else
      var before := ReleaseAll(l, c, now, ids[..|ids| - 1]);
      if before.None? then None else ReleaseOne(before.value, c, now, ids[|ids| - 1])
  }

  /** The storage check runs only when something was released. */
  function Release(l: Ledger, c: Catalog, now: nat, ids: seq<Id>, runwayOk: bool): Option<Ledger> {
    if ids == [] || |ids| > MAX_RELEASE_BATCH then None
    else
      var n := ReleaseAll(l, c, now, ids);
      if n.None? || (n.value != l && !runwayOk) then None else n
  }

  // ---------------------------------------------------------------- ticket devices

  /** `playable_ticket` */
  predicate Playable(l: Ledger, c: Catalog, id: Id) {
    id in l.tickets &&
    var t := l.tickets[id];
    && !t.status.Refunded? && !t.status.Voided?
    && t.publicationId in c.publications && !TakenDown(c, t.publicationId)
  }

  function AddDevice(l: Ledger, c: Catalog, now: nat, id: Id, key: string, certificate: string, epoch: nat, expires: nat,
                     wellFormed: bool, sigOk: bool, runwayOk: bool): Option<Ledger>
  {
    if !Playable(l, c, id) || !wellFormed || !InTime(expires, now, SIGNATURE_TTL_MS) || !sigOk then None
    else if epoch != l.tickets[id].deviceEpoch then None
    else
      var t := WithDevice(l.tickets[id], key, certificate, now);
      if t.None? || !runwayOk then None else Some(l.(tickets := l.tickets[id := t.value]))
  }

  function RevokeDevice(l: Ledger, now: nat, id: Id, key: string, epoch: nat, expires: nat, wellFormed: bool, sigOk: bool): Option<Ledger> {
    if id !in l.tickets || !wellFormed || !InTime(expires, now, SIGNATURE_TTL_MS) || !sigOk then None
    else if epoch != l.tickets[id].deviceEpoch then None
    else
      var t := WithoutDevice(l.tickets[id], key);
      if t.None? then None else Some(l.(tickets := l.tickets[id := t.value]))
  }

  function PlatformRevokeDevice(l: Ledger, g: Gov, caller: AccountId, id: Id, key: string, wellFormed: bool): Option<Ledger> {
    if caller != g.roles.platform || id !in l.tickets || !wellFormed then None
    else
      var t := WithoutDevice(l.tickets[id], key);
      if t.None? then None else Some(l.(tickets := l.tickets[id := t.value]))
  }

  // ---------------------------------------------------------------- card tickets

  datatype CardOrder = CardOrder(
    ticketId: Id,
    ticketKey: string,
    publicationId: Id,
    deviceKey: string,
    certificate: string,
    deviceExpires: nat,
    sigOk: bool,
    card: CardData,
    wellFormed: bool)

  function IssueCard(l: Ledger, c: Catalog, g: Gov, now: nat, caller: AccountId, o: CardOrder, deposit: nat, headroomOk: bool): Option<Ledger> {
    if caller != g.roles.operator || deposit != 0 || g.pause.closed || !o.wellFormed || o.card.grossMinor == 0 then None
    else if !InTime(o.deviceExpires, now, SIGNATURE_TTL_MS) || o.publicationId !in c.publications then None
    else
      var pub := c.publications[o.publicationId];
      if pub.availability != Active || o.ticketId in l.tickets || o.card.reference in l.cardReferences || !o.sigOk then None
      else if now + DEVICE_LIFETIME_MS > U64_MAX || !headroomOk then None
      else
        var t := Ticket(o.ticketKey, o.publicationId, pub.creator, Card, Purchased, 0, Split(0, 0, 0), 0,
                        now, 0, [NewDevice(o.deviceKey, o.certificate, now)], Some(o.card));
        Some(l.(tickets := l.tickets[o.ticketId := t], cardReferences := l.cardReferences + {o.card.reference}))
  }

  function VoidCard(l: Ledger, g: Gov, caller: AccountId, id: Id, reasonOk: bool): Option<Ledger> {
    if caller != g.roles.operator || g.pause.closed || !reasonOk || id !in l.tickets then None
    else
      var t := l.tickets[id];
      if !t.rail.Card? || !(t.status.Purchased? || t.status.Watched?) then None
      else Some(l.(tickets := l.tickets[id := t.(status := Voided, devices := [])]))
  }

  // ---------------------------------------------------------------- payouts

  function WithdrawCreator(l: Ledger, caller: AccountId): Option<Ledger> {
    var amount := Lookup(l.creators, caller);
    if amount == 0 then None
    else Some(l.(creators := l.creators[caller := 0],
                 transfers := l.transfers + [Transfer(CreatorPayout(caller), caller, amount, Pending)]))
  }

  function WithdrawPlatform(l: Ledger, g: Gov, caller: AccountId): Option<Ledger> {
    if caller != g.roles.platform || l.platform == 0 then None
    else Some(l.(platform := 0, transfers := l.transfers + [Transfer(PlatformPayout, g.roles.platform, l.platform, Pending)]))
  }

  function WithdrawTax(l: Ledger, g: Gov, caller: AccountId): Option<Ledger> {
    if !(caller == g.roles.tax || caller == g.roles.platform) || l.tax == 0 then None
    else Some(l.(tax := 0, transfers := l.transfers + [Transfer(TaxPayout, g.roles.tax, l.tax, Pending)]))
  }

  /** `liquid` is the balance above storage stake and operational reserve. */
  function WithdrawNear(l: Ledger, g: Gov, caller: AccountId, amount: nat, liquid: nat): Option<Ledger> {
    if caller != g.roles.platform || amount == 0 || amount > l.platformNear || amount > liquid then None
    else Some(l.(platformNear := l.platformNear - amount,
                 transfers := l.transfers + [Transfer(NearPayout, g.roles.platform, amount, Pending)]))
  }

  /** What a failed transfer's callback puts back; `None` is a callback that panics. */
  function Restore(l: Ledger, x: Transfer): Option<Ledger> {
    match x.purpose
    case CreatorPayout(a) =>
      if Add(Lookup(l.creators, a), x.amount).None? then None
      else Some(l.(creators := l.creators[a := Lookup(l.creators, a) + x.amount]))
    case PlatformPayout =>
      if Add(l.platform, x.amount).None? then None else Some(l.(platform := l.platform + x.amount))
    case TaxPayout =>
      if Add(l.tax, x.amount).None? then None else Some(l.(tax := l.tax + x.amount))
    case NearPayout =>
      if Add(l.platformNear, x.amount).None? then None else Some(l.(platformNear := l.platformNear + x.amount))
    case TicketRefund(id, status) =>
      if id !in l.tickets || Add(l.escrow, x.amount).None? then None
      else Some(l.(tickets := l.tickets[id := l.tickets[id].(status := status)], escrow := l.escrow + x.amount))
  }

  /** What a completed transfer's callback does: a completed refund clears the ticket's devices. */
  function Complete(l: Ledger, x: Transfer): Ledger {
    if x.purpose.TicketRefund? && x.purpose.ticketId in l.tickets then
      l.(tickets := l.tickets[x.purpose.ticketId := l.tickets[x.purpose.ticketId].(devices := [])])
    else l
  }

  /** The transfer's outcome becomes known and its callback runs. */
  function Resolve(l: Ledger, i: nat, success: bool): Option<Ledger> {
    if i >= |l.transfers| || l.transfers[i].fate != Pending then None
    else
      var x := l.transfers[i];
      var restored := Restore(l, x);
      var n := if success then Complete(l, x) else restored.GetOr(l);
      var fate := if success then Paid else if restored.Some? then Returned else Lost;
      Some(n.(transfers := l.transfers[i := x.(fate := fate)]))
  }

  // ---------------------------------------------------------------- one call

  datatype LedgerOp =
    | Buying(amount: nat, purchase: Purchase, runwayOk: bool)
    | Watching(id: Id)
    | Refunding(id: Id, refundTo: AccountId, expires: nat, sigOk: bool)
    | Releasing(ids: seq<Id>, runwayOk: bool)
    | DeviceAddition(id: Id, key: string, certificate: string, epoch: nat, expires: nat, wellFormed: bool, sigOk: bool, runwayOk: bool)
    | DeviceRevocation(id: Id, key: string, epoch: nat, expires: nat, wellFormed: bool, sigOk: bool)
    | PlatformRevocation(id: Id, key: string, wellFormed: bool)
    | CardIssue(order: CardOrder, deposit: nat, headroomOk: bool)
    | CardVoiding(id: Id, reasonOk: bool)
    | CreatorWithdrawal
    | PlatformWithdrawal
    | TaxWithdrawal
    | NearWithdrawal(nearAmount: nat, liquid: nat)
    | Resolution(transfer: nat, success: bool)

  function ApplyLedger(l: Ledger, c: Catalog, g: Gov, now: nat, caller: AccountId, op: LedgerOp): Option<Ledger> {
    match op
    case Buying(amount, purchase, runwayOk) =>
      var sale := Buy(l, c, g, now, amount, purchase, runwayOk);
      if sale.None? then None else if sale.value.Sold? then Some(sale.value.ledger) else Some(l)
    case Watching(id) => MarkWatched(l, c, g, caller, id)
    case Refunding(id, refundTo, expires, sigOk) => Refund(l, c, g, now, caller, id, refundTo, expires, sigOk)
    case Releasing(ids, runwayOk) => Release(l, c, now, ids, runwayOk)
    case DeviceAddition(id, key, certificate, epoch, expires, wellFormed, sigOk, runwayOk) =>
      AddDevice(l, c, now, id, key, certificate, epoch, expires, wellFormed, sigOk, runwayOk)
    case DeviceRevocation(id, key, epoch, expires, wellFormed, sigOk) => RevokeDevice(l, now, id, key, epoch, expires, wellFormed, sigOk)
    case PlatformRevocation(id, key, wellFormed) => PlatformRevokeDevice(l, g, caller, id, key, wellFormed)
    case CardIssue(order, deposit, headroomOk) => IssueCard(l, c, g, now, caller, order, deposit, headroomOk)
    case CardVoiding(id, reasonOk) => VoidCard(l, g, caller, id, reasonOk)
    case CreatorWithdrawal => WithdrawCreator(l, caller)
    case PlatformWithdrawal => WithdrawPlatform(l, g, caller)
    case TaxWithdrawal => WithdrawTax(l, g, caller)
    case NearWithdrawal(amount, liquid) => WithdrawNear(l, g, caller, amount, liquid)
    case Resolution(i, success) => Resolve(l, i, success)
  }
}
