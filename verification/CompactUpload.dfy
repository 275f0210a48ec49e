/** The compact upload message, version 1: its sixteen fields, their layout, and its text form. */
module CompactUpload {
  import opened Common
  import opened Wire
  import Base64
  import Utf8

  const PREFIX: string := "yt:u1:"

  /** The layout that the client writes and reads. */
  const LAYOUT: seq<Kind> := [
    Text(Some(128)), // job
    Text(Some(200)), // title
    Uint(16), // price
    Uint(8), // source bytes
    Uint(1), // profile
    Raw(32), // upload key
    Uint(4), // upload key lifetime
    Raw(32), // device key
    Raw(32), // certificate hash
    Uint(4), // device lifetime
    Uint(8), // quote issued at
    Uint(4), // quote lifetime
    Uint(8), // quote block
    Uint(1), // block window
    Uint(4), // quote key version
    Raw(64)] // quote signature

  /** The layout that the contract's Borsh structure has: the same, without limits on its two strings. */
  const BORSH_LAYOUT: seq<Kind> := [
    Text(None), Text(None), Uint(16), Uint(8), Uint(1), Raw(32), Uint(4), Raw(32), Raw(32), Uint(4), Uint(8), Uint(4), Uint(8), Uint(1),
    Uint(4), Raw(64)]

  /** The message as applications see it, with points in time instead of distances. */
  datatype Upload = Upload(
    job: string,
    title: string,
    price: nat,
    sourceBytes: nat,
    profile: nat,
    uploadKey: seq<byte>,
    uploadKeyExpires: nat,
    deviceKey: seq<byte>,
    certificate: seq<byte>,
    deviceLifetime: nat,
    issued: nat,
    expires: nat,
    block: nat,
    maxBlock: nat,
    keyVersion: nat,
    signature: seq<byte>)

  /** The distances are not negative, and the points in time fit 64 bits. */
  predicate Ordered(u: Upload) {
    && u.issued <= u.uploadKeyExpires <= U64_MAX
    && u.issued <= u.expires <= U64_MAX
    && u.block <= u.maxBlock <= U64_MAX
  }

  function Values(u: Upload): seq<Value>
    requires Ordered(u)
  {
    [Str(u.job), Str(u.title), Num(u.price), Num(u.sourceBytes), Num(u.profile), Bytes(u.uploadKey), Num(u.uploadKeyExpires - u.issued),
     Bytes(u.deviceKey), Bytes(u.certificate), Num(u.deviceLifetime), Num(u.issued), Num(u.expires - u.issued), Num(u.block),
     Num(u.maxBlock - u.block), Num(u.keyVersion), Bytes(u.signature)]
  }

  /** The kind of every single value. */
  lemma FitsEach(vs: seq<Value>)
    requires FitsLayout(LAYOUT, vs)
    ensures |vs| == 16 && vs[0].Str? && vs[1].Str? && vs[2].Num? && vs[3].Num? && vs[4].Num? && vs[5].Bytes? && vs[6].Num? && vs[7].Bytes?
    ensures vs[8].Bytes? && vs[9].Num? && vs[10].Num? && vs[11].Num? && vs[12].Num? && vs[13].Num? && vs[14].Num? && vs[15].Bytes?
  {
    assert Fits(LAYOUT[0], vs[0]) && Fits(LAYOUT[1], vs[1]) && Fits(LAYOUT[2], vs[2]) && Fits(LAYOUT[3], vs[3]);
    assert Fits(LAYOUT[4], vs[4]) && Fits(LAYOUT[5], vs[5]) && Fits(LAYOUT[6], vs[6]) && Fits(LAYOUT[7], vs[7]);
    assert Fits(LAYOUT[8], vs[8]) && Fits(LAYOUT[9], vs[9]) && Fits(LAYOUT[10], vs[10]) && Fits(LAYOUT[11], vs[11]);
    assert Fits(LAYOUT[12], vs[12]) && Fits(LAYOUT[13], vs[13]) && Fits(LAYOUT[14], vs[14]) && Fits(LAYOUT[15], vs[15]);
  }

  function FromValues(vs: seq<Value>): (u: Option<Upload>)
    requires FitsLayout(LAYOUT, vs)
  {
    FitsEach(vs);
    var u := Upload(vs[0].text, vs[1].text, vs[2].number, vs[3].number, vs[4].number, vs[5].bytes, vs[10].number + vs[6].number,
                    vs[7].bytes, vs[8].bytes, vs[9].number, vs[10].number, vs[10].number + vs[11].number, vs[12].number,
                    vs[12].number + vs[13].number, vs[14].number, vs[15].bytes);
    if Ordered(u) then Some(u) else None
  }

  /** Every field is within its size limit. */
  predicate Writable(u: Upload) {
    Ordered(u) && FitsLayout(LAYOUT, Values(u))
  }

  /** The message text; `None` is the thrown error. */
  function Pack(u: Upload): Option<string> {
    if Writable(u) then Some(PREFIX + Base64.Encode(Print(LAYOUT, Values(u)))) else None
  }

  function Unpack(message: string): Option<Upload> {
    if !(PREFIX <= message) then None
    else
      var data := Base64.Unbase64(message[|PREFIX|..]);
      if data.None? then None
      else
        var vs := Parse(LAYOUT, data.value);
        if vs.None? then None else ParsedIsPrinted(LAYOUT, data.value); FromValues(vs.value)
  }

  // ---------------------------------------------------------------- round trips

  lemma ValuesReadBack(u: Upload)
    requires Writable(u)
    ensures FromValues(Values(u)) == Some(u)
  {
  }

  lemma FromValuesWrites(vs: seq<Value>)
    requires FitsLayout(LAYOUT, vs) && FromValues(vs).Some?
    ensures Values(FromValues(vs).value) == vs
  {
    FitsEach(vs);
  }

  lemma SizeFrom(i: nat)
    requires i < 16 && MaxSize(LAYOUT[i]).Some? && MaxSizes(LAYOUT[i + 1..]).Some?
    ensures MaxSizes(LAYOUT[i..]) == Some(MaxSize(LAYOUT[i]).value + MaxSizes(LAYOUT[i + 1..]).value)
  {
    assert LAYOUT[i..][1..] == LAYOUT[i + 1..] && LAYOUT[i..][0] == LAYOUT[i];
  }

  lemma NothingLeft()
    ensures MaxSizes(LAYOUT[16..]) == Some(0)
  {
    assert LAYOUT[16..] == [];
  }

  lemma SizeFromTen()
    ensures MaxSizes(LAYOUT[10..]) == Some(89)
  {
    NothingLeft();
    hide MaxSizes;
    SizeFrom(15);
    SizeFrom(14);
    SizeFrom(13);
    SizeFrom(12);
    SizeFrom(11);
    SizeFrom(10);
  }

  lemma SizeFromFive()
    ensures MaxSizes(LAYOUT[5..]) == Some(193)
  {
    hide MaxSizes;
    SizeFromTen();
    SizeFrom(9);
    SizeFrom(8);
    SizeFrom(7);
    SizeFrom(6);
    SizeFrom(5);
  }

  lemma LayoutSize()
    ensures MaxSizes(LAYOUT) == Some(554)
  {
    hide MaxSizes;
    SizeFromFive();
    SizeFrom(4);
    SizeFrom(3);
    SizeFrom(2);
    SizeFrom(1);
    SizeFrom(0);
    assert LAYOUT[0..] == LAYOUT;
  }

  /** A message within the size limits has at most 554 bytes, so its base64 text has at most 740 characters and is never refused. */
  lemma PackedSize(u: Upload)
    requires Writable(u)
    ensures 1 <= |Print(LAYOUT, Values(u))| <= 554
    ensures |Base64.Encode(Print(LAYOUT, Values(u)))| <= 740
  {
    LayoutSize();
    PrintedSize(LAYOUT, Values(u));
    var data := Print(LAYOUT, Values(u));
    Base64.EncodedLength(data);
    assert Base64.Groups(|data|) <= 185;
    assert data == PrintOne(LAYOUT[0], Values(u)[0]) + Print(LAYOUT[1..], Values(u)[1..]);
  }

  lemma PackedUnpacks(u: Upload)
    requires Writable(u)
    ensures Unpack(Pack(u).value) == Some(u)
  {
    hide Print, Parse, FitsLayout, Base64.Encode, Base64.Unbase64, FromValues, Values;
    var data := Print(LAYOUT, Values(u));
    var message := PREFIX + Base64.Encode(data);
    assert message[|PREFIX|..] == Base64.Encode(data);
    PackedSize(u);
    Base64.AcceptsExactlyEncodings(Base64.Encode(data), data);
    PrintedIsParsed(LAYOUT, Values(u));
    ValuesReadBack(u);
  }

  lemma OrderedFromValues(vs: seq<Value>)
    requires FitsLayout(LAYOUT, vs) && FromValues(vs).Some?
    ensures Ordered(FromValues(vs).value)
  {
  }

  lemma UnpackedPacks(message: string)
    requires Unpack(message).Some?
    ensures Pack(Unpack(message).value) == Some(message)
  {
    hide Print, Parse, FitsLayout, Base64.Encode, Base64.Unbase64, FromValues, Values, Ordered;
    var text := message[|PREFIX|..];
    var data := Base64.Unbase64(text).value;
    Base64.AcceptsExactlyEncodings(text, data);
    ParsedIsPrinted(LAYOUT, data);
    var vs := Parse(LAYOUT, data).value;
    OrderedFromValues(vs);
    FromValuesWrites(vs);
    assert message == PREFIX + text;
  }

  /** Unpacking is exactly the inverse of packing, on every text and every message. */
  lemma UnpackIsInverse(message: string, u: Upload)
    ensures Unpack(message) == Some(u) <==> Pack(u) == Some(message)
  {
    if Pack(u) == Some(message) {
      PackedUnpacks(u);
    }
    if Unpack(message) == Some(u) {
      UnpackedPacks(message);
    }
  }

  /** Two different texts never mean the same message. */
  lemma UnpackIsInjective(a: string, b: string)
    requires Unpack(a).Some? && Unpack(a) == Unpack(b)
    ensures a == b
  {
    UnpackIsInverse(a, Unpack(a).value);
    UnpackIsInverse(b, Unpack(a).value);
  }

  // ---------------------------------------------------------------- the contract's decoder

  lemma LayoutsAgree()
    ensures SameLayout(LAYOUT, BORSH_LAYOUT)
  {
  }

  /** The text limits that the contract checks after decoding. */
  predicate WithinLimits(vs: seq<Value>) {
    && |vs| >= 2 && vs[0].Str? && vs[1].Str?
    && |Utf8.Encode(vs[0].text)| <= 128 && |Utf8.Encode(vs[1].text)| <= 200
  }

  lemma LimitsAreTheDifference(vs: seq<Value>)
    ensures FitsLayout(LAYOUT, vs) <==> FitsLayout(BORSH_LAYOUT, vs) && WithinLimits(vs)
  {
    assert FitsLayout(BORSH_LAYOUT, vs) ==> Fits(BORSH_LAYOUT[0], vs[0]) && Fits(BORSH_LAYOUT[1], vs[1]);
    assert FitsLayout(LAYOUT, vs) ==> Fits(LAYOUT[0], vs[0]) && Fits(LAYOUT[1], vs[1]);
    assert forall i | 2 <= i < 16 :: LAYOUT[i] == BORSH_LAYOUT[i];
  }

  /**
   The contract's Borsh decoder reads the same fields from the same bytes; it differs only in
   leaving the two text limits to a later check.
   */
  lemma BorshReadsTheSame(data: seq<byte>, vs: seq<Value>)
    ensures Parse(LAYOUT, data) == Some(vs) <==> Parse(BORSH_LAYOUT, data) == Some(vs) && WithinLimits(vs)
  {
    hide FitsLayout, WithinLimits, Parse;
    LayoutsAgree();
    SameLayoutParsesSame(LAYOUT, BORSH_LAYOUT, data, vs);
    ParseIsInverse(LAYOUT, data, vs);
    ParseIsInverse(BORSH_LAYOUT, data, vs);
    LimitsAreTheDifference(vs);
  }

  // ---------------------------------------------------------------- the two programs

  lemma Misfit(u: Upload, i: nat)
    requires Ordered(u) && i < 16 && !Fits(LAYOUT[i], Values(u)[i])
    ensures Pack(u) == None
  {
  }

  lemma LengthsFit()
    ensures Pow256(4) > 200
  {
  }

  /** The writer is writing `u`, and has written so many of its fields. */
  ghost predicate Writing(w: Writer, u: Upload, count: nat)
    reads w
  {
    Ordered(u) && w.Valid() && w.layout == LAYOUT && w.values == Values(u) && w.count == count
  }

  /** The upload request: the first seven fields. */
  method PutRequest(w: Writer, u: Upload) returns (ok: bool)
    requires Writing(w, u, 0)
    modifies w
    ensures if ok then Writing(w, u, 7) else Pack(u) == None
  {
    LengthsFit();
    hide Pack, Fits, FitsLayout, Print, Pow256;
    ok := w.PutText(u.job, 128);
    if !ok { Misfit(u, 0); return; }
    ok := w.PutText(u.title, 200);
    if !ok { Misfit(u, 1); return; }
    ok := w.PutUint(u.price, 16);
    if !ok { Misfit(u, 2); return; }
    ok := w.PutUint(u.sourceBytes, 8);
    if !ok { Misfit(u, 3); return; }
    ok := w.PutUint(u.profile, 1);
    if !ok { Misfit(u, 4); return; }
    ok := w.PutBytes(u.uploadKey, 32);
    if !ok { Misfit(u, 5); return; }
    ok := w.PutUint(u.uploadKeyExpires - u.issued, 4);
    if !ok { Misfit(u, 6); return; }
  }

  /** The playback session. */
  method PutSession(w: Writer, u: Upload) returns (ok: bool)
    requires Writing(w, u, 7)
    modifies w
    ensures if ok then Writing(w, u, 10) else Pack(u) == None
  {
    hide Pack, Fits, FitsLayout, Print, Pow256;
    ok := w.PutBytes(u.deviceKey, 32);
    if !ok { Misfit(u, 7); return; }
    ok := w.PutBytes(u.certificate, 32);
    if !ok { Misfit(u, 8); return; }
    ok := w.PutUint(u.deviceLifetime, 4);
    if !ok { Misfit(u, 9); return; }
  }

  /** The quote and its signature. */
  method PutQuote(w: Writer, u: Upload) returns (ok: bool)
    requires Writing(w, u, 10)
    modifies w
    ensures if ok then Writing(w, u, 16) else Pack(u) == None
  {
    hide Pack, Fits, FitsLayout, Print, Pow256;
    ok := w.PutUint(u.issued, 8);
    if !ok { Misfit(u, 10); return; }
    ok := w.PutUint(u.expires - u.issued, 4);
    if !ok { Misfit(u, 11); return; }
    ok := w.PutUint(u.block, 8);
    if !ok { Misfit(u, 12); return; }
    ok := w.PutUint(u.maxBlock - u.block, 1);
    if !ok { Misfit(u, 13); return; }
    ok := w.PutUint(u.keyVersion, 4);
    if !ok { Misfit(u, 14); return; }
    ok := w.PutBytes(u.signature, 64);
    if !ok { Misfit(u, 15); return; }
  }

  /** `packCompactUpload`, whose fields are already bytes and numbers. */
  method PackUpload(u: Upload) returns (message: Option<string>)
    ensures message == Pack(u)
  {
    if !Ordered(u) { return None; }
    var w := new Writer(LAYOUT, Values(u));
    var ok := PutRequest(w, u);
    if !ok { return None; }
    ok := PutSession(w, u);
    if !ok { return None; }
    ok := PutQuote(w, u);
    if !ok { return None; }
    assert LAYOUT[..16] == LAYOUT && Values(u)[..16] == Values(u);
    return Some(PREFIX + Base64.Encode(w.out));
  }

  /** The reader is reading a message, and has read so many of its fields. */
  ghost predicate Reading(r: Reader, count: nat)
    reads r
  {
    r.Valid() && r.layout == LAYOUT && |r.taken| == count
  }

  datatype Request = Request(job: string, title: string, price: nat, sourceBytes: nat, profile: nat, uploadKey: seq<byte>, uploadLifetime: nat)

  datatype Session = Session(deviceKey: seq<byte>, certificate: seq<byte>, deviceLifetime: nat)

  datatype Quote = Quote(issued: nat, lifetime: nat, block: nat, blockWindow: nat, keyVersion: nat, signature: seq<byte>)

  function RequestValues(q: Request): seq<Value> {
    [Str(q.job), Str(q.title), Num(q.price), Num(q.sourceBytes), Num(q.profile), Bytes(q.uploadKey), Num(q.uploadLifetime)]
  }

  function SessionValues(q: Session): seq<Value> {
    [Bytes(q.deviceKey), Bytes(q.certificate), Num(q.deviceLifetime)]
  }

  function QuoteValues(q: Quote): seq<Value> {
    [Num(q.issued), Num(q.lifetime), Num(q.block), Num(q.blockWindow), Num(q.keyVersion), Bytes(q.signature)]
  }

  method GetRequest(r: Reader) returns (request: Option<Request>)
    requires Reading(r, 0)
    modifies r
    ensures if request.None? then Parse(LAYOUT, r.data).None? else Reading(r, 7) && r.taken == old(r.taken) + RequestValues(request.value)
  {
    hide Parse, Continues;
    var job := r.GetText(128);
    if job.None? { return None; }
    var title := r.GetText(200);
    if title.None? { return None; }
    var price := r.GetUint(16);
    if price.None? { return None; }
    var sourceBytes := r.GetUint(8);
    if sourceBytes.None? { return None; }
    var profile := r.GetUint(1);
    if profile.None? { return None; }
    var uploadKey := r.GetBytes(32);
    if uploadKey.None? { return None; }
    var lifetime := r.GetUint(4);
    if lifetime.None? { return None; }
    return Some(Request(job.value, title.value, price.value, sourceBytes.value, profile.value, uploadKey.value, lifetime.value));
  }

  method GetSession(r: Reader) returns (session: Option<Session>)
    requires Reading(r, 7)
    modifies r
    ensures if session.None? then Parse(LAYOUT, r.data).None? else Reading(r, 10) && r.taken == old(r.taken) + SessionValues(session.value)
  {
    hide Parse, Continues;
    var deviceKey := r.GetBytes(32);
    if deviceKey.None? { return None; }
    var certificate := r.GetBytes(32);
    if certificate.None? { return None; }
    var lifetime := r.GetUint(4);
    if lifetime.None? { return None; }
    return Some(Session(deviceKey.value, certificate.value, lifetime.value));
  }

  method GetQuote(r: Reader) returns (quote: Option<Quote>)
    requires Reading(r, 10)
    modifies r
    ensures if quote.None? then Parse(LAYOUT, r.data).None? else Reading(r, 16) && r.taken == old(r.taken) + QuoteValues(quote.value)
  {
    hide Parse, Continues;
    var issued := r.GetUint(8);
    if issued.None? { return None; }
    var lifetime := r.GetUint(4);
    if lifetime.None? { return None; }
    var block := r.GetUint(8);
    if block.None? { return None; }
    var blockWindow := r.GetUint(1);
    if blockWindow.None? { return None; }
    var keyVersion := r.GetUint(4);
    if keyVersion.None? { return None; }
    var signature := r.GetBytes(64);
    if signature.None? { return None; }
    return Some(Quote(issued.value, lifetime.value, block.value, blockWindow.value, keyVersion.value, signature.value));
  }

  lemma ReadToTheEnd(r: Reader)
    requires Reading(r, 16)
    ensures Parse(LAYOUT, r.data) == if r.offset == |r.data| then Some(r.taken) else None
  {
    assert LAYOUT[16..] == [];
    assert r.taken + [] == r.taken;
  }

  /** The sums of the unpacker, each of which must fit 64 bits. */
  method Assemble(q: Request, s: Session, t: Quote) returns (upload: Option<Upload>)
    requires FitsLayout(LAYOUT, RequestValues(q) + SessionValues(s) + QuoteValues(t))
    ensures upload == FromValues(RequestValues(q) + SessionValues(s) + QuoteValues(t))
  {
    if t.issued + q.uploadLifetime > U64_MAX || t.issued + t.lifetime > U64_MAX || t.block + t.blockWindow > U64_MAX { return None; }
    return Some(Upload(q.job, q.title, q.price, q.sourceBytes, q.profile, q.uploadKey, t.issued + q.uploadLifetime, s.deviceKey,
                       s.certificate, s.deviceLifetime, t.issued, t.issued + t.lifetime, t.block, t.block + t.blockWindow, t.keyVersion,
                       t.signature));
  }

  /** `unpackCompactUpload`, up to its checks on single values. */
  method UnpackUpload(message: string) returns (upload: Option<Upload>)
    ensures upload == Unpack(message)
  {
    hide Parse, Continues, FromValues, FitsLayout, RequestValues, SessionValues, QuoteValues, Print, Base64.Unbase64;
    if !(PREFIX <= message) { return None; }
    var data := Base64.Unbase64(message[|PREFIX|..]);
    if data.None? { return None; }
    var r := new Reader(data.value, LAYOUT);
    var request := GetRequest(r);
    if request.None? { return None; }
    var session := GetSession(r);
    if session.None? { return None; }
    var quote := GetQuote(r);
    if quote.None? { return None; }
    ReadToTheEnd(r);
    if r.offset != |r.data| { return None; }
    ParsedIsPrinted(LAYOUT, r.data);
    assert r.taken == RequestValues(request.value) + SessionValues(session.value) + QuoteValues(quote.value);
    upload := Assemble(request.value, session.value, quote.value);
  }
}
