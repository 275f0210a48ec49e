/** The texts that ticket keys and the VAT key sign: one line per field, and no two meanings share one. */
module SignedMessages {
  import opened Common
  import opened Decimals

  const TICKET_DOMAIN: string := "youtick.market-v2.ticket-sig.v1"
  const VAT_DOMAIN: string := "youtick.market-v2.vat.v1"

  predicate SingleLine(field: string) {
    field != "" && '\n' !in field && '\r' !in field
  }

  function Join(fields: seq<string>): string {
    if fields == [] then ""
    else if |fields| == 1 then fields[0]
    else fields[0] + "\n" + Join(fields[1..])
  }

  /** `signed_lines` */
  function SignedLines(fields: seq<string>): Option<string> {
    if forall i | 0 <= i < |fields| :: SingleLine(fields[i]) then Some(Join(fields)) else None
  }

  /** The position of the first line break, or the end of the text. */
  function LineEnd(s: string): (end: nat)
    ensures end <= |s| && '\n' !in s[..end] && (end < |s| ==> s[end] == '\n')
  {
    if s == [] || s[0] == '\n' then 0
    else
      var end := LineEnd(s[1..]) + 1;
      assert s[..end] == [s[0]] + s[1..][..end - 1];
      end
  }

  /** The text cut at its line breaks. */
  function Lines(s: string): seq<string>
    decreases |s|
  {
    var end := LineEnd(s);
    if end == |s| then [s] else [s[..end]] + Lines(s[end + 1..])
  }

  lemma {:induction false} LineEndAt(line: string, rest: string)
    requires '\n' !in line
    ensures LineEnd(line + "\n" + rest) == |line|
    ensures LineEnd(line) == |line|
  {
    if line != [] {
      assert (line + "\n" + rest)[1..] == line[1..] + "\n" + rest;
      LineEndAt(line[1..], rest);
    }
  }

  /** The signed text can be read back: its lines are its fields. */
  lemma {:induction false} LinesReadBack(fields: seq<string>)
    requires fields != [] && SignedLines(fields).Some?
    ensures Lines(SignedLines(fields).value) == fields
  {
    assert SingleLine(fields[0]);
    if |fields| == 1 {
      LineEndAt(fields[0], "");
    } else {
      var rest := Join(fields[1..]);
      var s := fields[0] + "\n" + rest;
      LineEndAt(fields[0], rest);
      assert s[..|fields[0]|] == fields[0] && s[|fields[0]| + 1..] == rest;
      LinesReadBack(fields[1..]);
    }
  }

  lemma JoinIsNotEmpty(fields: seq<string>)
    requires fields != [] && SignedLines(fields).Some?
    ensures Join(fields) != ""
  {
    assert SingleLine(fields[0]);
  }

  /** Two accepted field lists, of any lengths, with the same text are the same list. */
  lemma SignedLinesIsInjective(a: seq<string>, b: seq<string>)
    requires SignedLines(a).Some? && SignedLines(a) == SignedLines(b)
    ensures a == b
  {
    if a == [] {
      if b != [] {
        JoinIsNotEmpty(b);
      }
    } else {
      JoinIsNotEmpty(a);
      LinesReadBack(a);
      LinesReadBack(b);
    }
  }

  /** Everything the market verifies a signature over; numbers are kept as the texts that are signed. */
  datatype Action =
    | AddDevice(ticketId: string, expires: string, key: string, certificate: string, epoch: string)
    | RevokeDevice(ticketId: string, expires: string, key: string, epoch: string)
    | RefundTicket(ticketId: string, expires: string, refundTo: string)
    | PurchaseDevice(ticketId: string, expires: string, publicationId: string, key: string, certificate: string)
    | CardPurchase(ticketId: string, expires: string, publicationId: string, key: string, certificate: string,
                   reference: string, grossMinor: string, currency: string)
    | VatAttestation(ticketId: string, publicationId: string, gross: string, vat: string, expires: string, keyVersion: string)

  function Fields(network: string, contract: string, a: Action): seq<string> {
    match a
    case AddDevice(ticketId, expires, key, certificate, epoch) =>
      [TICKET_DOMAIN, network, contract, "add_device", ticketId, expires, key, certificate, epoch]
    case RevokeDevice(ticketId, expires, key, epoch) =>
      [TICKET_DOMAIN, network, contract, "revoke_device", ticketId, expires, key, epoch]
    case RefundTicket(ticketId, expires, refundTo) =>
      [TICKET_DOMAIN, network, contract, "refund_ticket", ticketId, expires, refundTo]
    case PurchaseDevice(ticketId, expires, publicationId, key, certificate) =>
      [TICKET_DOMAIN, network, contract, "purchase_device", ticketId, expires, publicationId, key, certificate]
    case CardPurchase(ticketId, expires, publicationId, key, certificate, reference, grossMinor, currency) =>
      [TICKET_DOMAIN, network, contract, "card_purchase", ticketId, expires, publicationId, key, certificate, reference, grossMinor, currency]
    case VatAttestation(ticketId, publicationId, gross, vat, expires, keyVersion) =>
      [VAT_DOMAIN, network, contract, ticketId, publicationId, gross, vat, expires, keyVersion]
  }

  function Message(network: string, contract: string, a: Action): Option<string> {
    SignedLines(Fields(network, contract, a))
  }

  lemma DomainsDiffer()
    ensures TICKET_DOMAIN != VAT_DOMAIN
    ensures "add_device" != "purchase_device"
  {
    assert |TICKET_DOMAIN| == 31 && |VAT_DOMAIN| == 24;
    assert |"add_device"| == 10 && |"purchase_device"| == 15;
  }

  lemma FieldsAreDistinct(network: string, contract: string, a: Action, network': string, contract': string, b: Action)
    requires Fields(network, contract, a) == Fields(network', contract', b)
    ensures network == network' && contract == contract' && a == b
  {
    var f, h := Fields(network, contract, a), Fields(network', contract', b);
    assert f[0] == h[0] && f[1] == h[1] && f[2] == h[2] && f[3] == h[3] && f[4] == h[4] && f[5] == h[5] && f[6] == h[6];
    assert |TICKET_DOMAIN| != |VAT_DOMAIN|;
    DomainsDiffer();
    if |f| > 7 {
      assert f[7] == h[7];
    }
    if |f| > 8 {
      assert f[8] == h[8];
    }
    if |f| > 9 {
      assert f[9] == h[9] && f[10] == h[10] && f[11] == h[11];
    }
  }

  /**
   A signed text has one meaning: two actions, for whatever networks and contracts, share a text
   only if they are the same action with the same fields for the same contract.
   */
  lemma SignedTextHasOneMeaning(network: string, contract: string, a: Action, network': string, contract': string, b: Action)
    requires Message(network, contract, a).Some?
    requires Message(network, contract, a) == Message(network', contract', b)
    ensures network == network' && contract == contract' && a == b
  {
    SignedLinesIsInjective(Fields(network, contract, a), Fields(network', contract', b));
    FieldsAreDistinct(network, contract, a, network', contract', b);
  }

  /** The numbers in it are unambiguous too: equal epochs and expiries can only be written one way. */
  lemma SignedNumbersHaveOneMeaning(network: string, contract: string, a: Action, network': string, contract': string, b: Action,
                                    epoch: nat, expires: nat)
    requires a.AddDevice? && b.AddDevice? && Message(network, contract, a).Some? && Message(network', contract', b).Some?
    requires ParseCanonical(a.epoch, U32_MAX) == Some(epoch) && ParseCanonical(a.expires, U64_MAX) == Some(expires)
    requires a.ticketId == b.ticketId && a.key == b.key && a.certificate == b.certificate && network == network' && contract == contract'
    ensures Message(network, contract, a) == Message(network', contract', b)
            <==> ParseCanonical(b.epoch, U32_MAX) == Some(epoch) && ParseCanonical(b.expires, U64_MAX) == Some(expires)
  {
    if Message(network, contract, a) == Message(network', contract', b) {
      SignedTextHasOneMeaning(network, contract, a, network', contract', b);
    } else if ParseCanonical(b.epoch, U32_MAX) == Some(epoch) && ParseCanonical(b.expires, U64_MAX) == Some(expires) {
      CanonicalIsInjective(a.epoch, b.epoch, U32_MAX);
      CanonicalIsInjective(a.expires, b.expires, U64_MAX);
      assert false;
    }
  }
}
