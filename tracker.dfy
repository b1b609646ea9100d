/**
 * Tracker handling of the client: the UDP announce request of BEP 15 (the
 * BitTorrent UDP Tracker Protocol) and the list of trackers taken from a
 * torrent's `announce` and `announce-list` fields.
 *
 * `Announce` is a record whose fields start out partly unset and are filled in
 * by setters; `GetBytesMut` lays the complete record out as the 98-byte
 * "IPv4 announce request" of BEP 15. The layout itself is stated once, as the
 * predicate `IsAnnounceLayout` (one conjunct per row of the table in BEP 15),
 * and `ReadRequest` reads the fields back from their offsets.
 */
module Tracker {
  import opened Wrappers
  import opened Ints
  import BigEndian

  /** A 20-byte string: an info hash or a peer id. */
  type Bytes20 = s: seq<byte> | |s| == 20
    witness [0, 0, 0, 0, 0, 0, 0, 0, 0, 0, 0, 0, 0, 0, 0, 0, 0, 0, 0, 0]

  /** Size of an IPv4 announce request in BEP 15. */
  const ANNOUNCE_REQUEST_SIZE: nat := 98

  /** Action code of an announce. */
  const ACTION_ANNOUNCE: i32 := 1
  /** Event "none" (1 completed, 2 started, 3 stopped). */
  const EVENT_NONE: i32 := 0
  /** An IP address of 0 asks the tracker to use the sender of the packet. */
  const IP_FROM_SENDER: i32 := 0
  /** A num_want of -1 asks for the tracker's default number of peers. */
  const NUM_WANT_DEFAULT: i32 := -1

  /** The ASCII bytes of the peer id "-BOWxxx-yyyyyyyyyyyy". */
  const PEER_ID_TEMPLATE: seq<byte> :=
    [0x2D, 0x42, 0x4F, 0x57, 0x78, 0x78, 0x78, 0x2D,
     0x79, 0x79, 0x79, 0x79, 0x79, 0x79, 0x79, 0x79, 0x79, 0x79, 0x79, 0x79]

  /** The fields of an `Announce`, each possibly unset. */
  datatype AnnounceFields = AnnounceFields(
    connectionId: Option<i64>,
    action: Option<i32>,
    transactionId: Option<i32>,
    infoHash: Option<Bytes20>,
    peerId: Option<Bytes20>,
    downloaded: Option<i64>,
    left: Option<i64>,
    uploaded: Option<i64>,
    event: Option<i32>,
    ipAddress: Option<i32>,
    key: Option<i32>,
    numWant: Option<i32>,
    port: Option<i16>)

  /** A complete announce request: every field present. */
  datatype AnnounceRequest = AnnounceRequest(
    connectionId: i64,
    action: i32,
    transactionId: i32,
    infoHash: Bytes20,
    peerId: Bytes20,
    downloaded: i64,
    left: i64,
    uploaded: i64,
    event: i32,
    ipAddress: i32,
    key: i32,
    numWant: i32,
    port: i16)

  /** Every integer field of a request fits the width BEP 15 gives it. */
  lemma RequestInRange(r: AnnounceRequest)
    ensures BigEndian.InSignedRange(r.connectionId, 8)
    ensures BigEndian.InSignedRange(r.action, 4) && BigEndian.InSignedRange(r.transactionId, 4)
    ensures BigEndian.InSignedRange(r.downloaded, 8) && BigEndian.InSignedRange(r.left, 8)
    ensures BigEndian.InSignedRange(r.uploaded, 8)
    ensures BigEndian.InSignedRange(r.event, 4) && BigEndian.InSignedRange(r.ipAddress, 4)
    ensures BigEndian.InSignedRange(r.key, 4) && BigEndian.InSignedRange(r.numWant, 4)
    ensures BigEndian.InSignedRange(r.port, 2)
  {
    BigEndian.SignedRanges(r.connectionId);
    BigEndian.SignedRanges(r.action);
    BigEndian.SignedRanges(r.transactionId);
    BigEndian.SignedRanges(r.downloaded);
    BigEndian.SignedRanges(r.left);
    BigEndian.SignedRanges(r.uploaded);
    BigEndian.SignedRanges(r.event);
    BigEndian.SignedRanges(r.ipAddress);
    BigEndian.SignedRanges(r.key);
    BigEndian.SignedRanges(r.numWant);
    BigEndian.SignedRanges(r.port);
  }

  /**
   * The "IPv4 announce request" table of BEP 15: b is 98 bytes long and each
   * field of r sits, big-endian, at its offset.
   */
  ghost predicate IsAnnounceLayout(b: seq<byte>, r: AnnounceRequest) {
    RequestInRange(r);
    && |b| == ANNOUNCE_REQUEST_SIZE
    && b[0..8] == BigEndian.Encode(r.connectionId, 8)
    && b[8..12] == BigEndian.Encode(r.action, 4)
    && b[12..16] == BigEndian.Encode(r.transactionId, 4)
    && b[16..36] == r.infoHash
    && b[36..56] == r.peerId
    && b[56..64] == BigEndian.Encode(r.downloaded, 8)
    && b[64..72] == BigEndian.Encode(r.left, 8)
    && b[72..80] == BigEndian.Encode(r.uploaded, 8)
    && b[80..84] == BigEndian.Encode(r.event, 4)
    && b[84..88] == BigEndian.Encode(r.ipAddress, 4)
    && b[88..92] == BigEndian.Encode(r.key, 4)
    && b[92..96] == BigEndian.Encode(r.numWant, 4)
    && b[96..98] == BigEndian.Encode(r.port, 2)
  }

  function ReadI64(b: seq<byte>): (x: i64)
    requires |b| == 8
  {
    BigEndian.SignedRanges(BigEndian.Decode(b));
    BigEndian.Decode(b)
  }

  function ReadI32(b: seq<byte>): (x: i32)
    requires |b| == 4
  {
    BigEndian.SignedRanges(BigEndian.Decode(b));
    BigEndian.Decode(b)
  }

  function ReadI16(b: seq<byte>): (x: i16)
    requires |b| == 2
  {
    BigEndian.SignedRanges(BigEndian.Decode(b));
    BigEndian.Decode(b)
  }

  /** Reads every field of an announce request back from its BEP 15 offset. */
  function ReadRequest(b: seq<byte>): (r: AnnounceRequest)
    requires |b| == ANNOUNCE_REQUEST_SIZE
  {
    AnnounceRequest(
      ReadI64(b[0..8]), ReadI32(b[8..12]), ReadI32(b[12..16]),
      b[16..36], b[36..56],
      ReadI64(b[56..64]), ReadI64(b[64..72]), ReadI64(b[72..80]),
      ReadI32(b[80..84]), ReadI32(b[84..88]), ReadI32(b[88..92]), ReadI32(b[92..96]),
      ReadI16(b[96..98]))
  }

  /** Field round trip: decoding a laid-out request at the BEP 15 offsets gives back every field. */
  lemma ReadRequestOfLayout(b: seq<byte>, r: AnnounceRequest)
    requires IsAnnounceLayout(b, r)
    ensures ReadRequest(b) == r
  {
    RequestInRange(r);
    BigEndian.DecodeEncode(r.connectionId, 8);
    BigEndian.DecodeEncode(r.action, 4);
    BigEndian.DecodeEncode(r.transactionId, 4);
    BigEndian.DecodeEncode(r.downloaded, 8);
    BigEndian.DecodeEncode(r.left, 8);
    BigEndian.DecodeEncode(r.uploaded, 8);
    BigEndian.DecodeEncode(r.event, 4);
    BigEndian.DecodeEncode(r.ipAddress, 4);
    BigEndian.DecodeEncode(r.key, 4);
    BigEndian.DecodeEncode(r.numWant, 4);
    BigEndian.DecodeEncode(r.port, 2);
  }

  /** Every 98-byte buffer is the layout of the request read from it. */
  lemma LayoutOfReadRequest(b: seq<byte>)
    requires |b| == ANNOUNCE_REQUEST_SIZE
    ensures IsAnnounceLayout(b, ReadRequest(b))
  {
    BigEndian.EncodeDecode(b[0..8]);
    BigEndian.EncodeDecode(b[8..12]);
    BigEndian.EncodeDecode(b[12..16]);
    BigEndian.EncodeDecode(b[56..64]);
    BigEndian.EncodeDecode(b[64..72]);
    BigEndian.EncodeDecode(b[72..80]);
    BigEndian.EncodeDecode(b[80..84]);
    BigEndian.EncodeDecode(b[84..88]);
    BigEndian.EncodeDecode(b[88..92]);
    BigEndian.EncodeDecode(b[92..96]);
    BigEndian.EncodeDecode(b[96..98]);
  }

  /** A request has one layout: two buffers laying out the same request are equal. */
  lemma LayoutIsUnique(b1: seq<byte>, b2: seq<byte>, r: AnnounceRequest)
    requires IsAnnounceLayout(b1, r) && IsAnnounceLayout(b2, r)
    ensures b1 == b2
  {
  }

  /**
   * The protocol defaults of `Announce.Empty` on the wire: action 1 is
   * 00 00 00 01 at offset 8, event 0 and ip 0 are zero words, and num_want -1
   * is FF FF FF FF at offset 92.
   */
  lemma DefaultsOnTheWire(b: seq<byte>, r: AnnounceRequest)
    requires IsAnnounceLayout(b, r)
    requires r.action == ACTION_ANNOUNCE && r.event == EVENT_NONE
    requires r.ipAddress == IP_FROM_SENDER && r.numWant == NUM_WANT_DEFAULT
    ensures b[8..12] == [0x00, 0x00, 0x00, 0x01]
    ensures b[80..84] == [0x00, 0x00, 0x00, 0x00]
    ensures b[84..88] == [0x00, 0x00, 0x00, 0x00]
    ensures b[92..96] == [0xFF, 0xFF, 0xFF, 0xFF]
  {
    assert BigEndian.Encode(1, 4) == [0x00, 0x00, 0x00, 0x01] by {
      assert BigEndian.UnsignedBytes(1, 4) == BigEndian.UnsignedBytes(0, 3) + [1];
    }
    assert BigEndian.Encode(0, 4) == [0x00, 0x00, 0x00, 0x00] by {
      assert BigEndian.UnsignedBytes(0, 4) == BigEndian.UnsignedBytes(0, 3) + [0];
    }
    assert BigEndian.Encode(-1, 4) == [0xFF, 0xFF, 0xFF, 0xFF] by {
      assert BigEndian.UnsignedBytes(0xFFFF_FFFF, 4) == BigEndian.UnsignedBytes(0xFF_FFFF, 3) + [0xFF];
      assert BigEndian.UnsignedBytes(0xFF_FFFF, 3) == BigEndian.UnsignedBytes(0xFFFF, 2) + [0xFF];
      assert BigEndian.UnsignedBytes(0xFFFF, 2) == BigEndian.UnsignedBytes(0xFF, 1) + [0xFF];
    }
  }

  /**
   * Copies `slice` into a zeroed 20-byte array, index by index, as
   * `Announce::empty` builds its peer id.
   */
  method PeerIdFrom(slice: seq<byte>) returns (id: Bytes20)
    requires |slice| <= 20
    ensures id[..|slice|] == slice
    ensures forall i :: |slice| <= i < 20 ==> id[i] == 0
  {
    var a := new byte[20](_ => 0);
    for index := 0 to |slice|
      invariant a[..index] == slice[..index]
      invariant forall i :: index <= i < 20 ==> a[i] == 0
    {
      a[index] := slice[index];
    }
    id := a[..];
  }

  /** The announce record, built field by field before it is laid out. */
  class Announce {
    var connectionId: Option<i64>
    var action: Option<i32>
    var transactionId: Option<i32>
    var infoHash: Option<Bytes20>
    var peerId: Option<Bytes20>
    var downloaded: Option<i64>
    var left: Option<i64>
    var uploaded: Option<i64>
    var event: Option<i32>
    var ipAddress: Option<i32>
    var key: Option<i32>
    var numWant: Option<i32>
    var port: Option<i16>

    ghost function Fields(): AnnounceFields
      reads this
    {
      AnnounceFields(connectionId, action, transactionId, infoHash, peerId,
        downloaded, left, uploaded, event, ipAddress, key, numWant, port)
    }

    /** Every field is set, so laying the record out cannot fail. */
    predicate Complete()
      reads this
    {
      && connectionId.Some? && action.Some? && transactionId.Some?
      && infoHash.Some? && peerId.Some?
      && downloaded.Some? && left.Some? && uploaded.Some?
      && event.Some? && ipAddress.Some? && key.Some? && numWant.Some? && port.Some?
    }

    function Request(): AnnounceRequest
      reads this
      requires Complete()
    {
      AnnounceRequest(connectionId.value, action.value, transactionId.value,
        infoHash.value, peerId.value, downloaded.value, left.value, uploaded.value,
        event.value, ipAddress.value, key.value, numWant.value, port.value)
    }

    /**
     * The record with the protocol defaults filled in (announce action, no
     * event, IP inferred by the tracker, default peer count, the client's
     * peer id) and every session field unset.
     */
    constructor Empty()
      ensures Fields() == AnnounceFields(
        None, Some(ACTION_ANNOUNCE), None, None, Some(PEER_ID_TEMPLATE),
        None, None, None, Some(EVENT_NONE), Some(IP_FROM_SENDER), None, Some(NUM_WANT_DEFAULT), None)
    {
      var id := PeerIdFrom(PEER_ID_TEMPLATE);
      assert id == id[..|PEER_ID_TEMPLATE|];
      connectionId := None;
      action := Some(ACTION_ANNOUNCE);
      transactionId := None;
      infoHash := None;
      peerId := Some(id);
      downloaded := None;
      left := None;
      uploaded := None;
      event := Some(EVENT_NONE);
      ipAddress := Some(IP_FROM_SENDER);
      key := None;
      numWant := Some(NUM_WANT_DEFAULT);
      port := None;
    }

    /**
     * Appends every field, big-endian, in the order of BEP 15. The result is
     * the 98-byte announce request of the record, from which every field can
     * be read back at its offset.
     */
    method GetBytesMut() returns (bytes: seq<byte>)
      requires Complete()
      ensures IsAnnounceLayout(bytes, Request())
      ensures ReadRequest(bytes) == Request()
    {
      var r := Request();
      RequestInRange(r);
      bytes := [];
      bytes := bytes + BigEndian.Encode(connectionId.value, 8);
      bytes := bytes + BigEndian.Encode(action.value, 4);
      bytes := bytes + BigEndian.Encode(transactionId.value, 4);
      bytes := bytes + infoHash.value;
      bytes := bytes + peerId.value;
      bytes := bytes + BigEndian.Encode(downloaded.value, 8);
      bytes := bytes + BigEndian.Encode(left.value, 8);
      bytes := bytes + BigEndian.Encode(uploaded.value, 8);
      bytes := bytes + BigEndian.Encode(event.value, 4);
      bytes := bytes + BigEndian.Encode(ipAddress.value, 4);
      bytes := bytes + BigEndian.Encode(key.value, 4);
      bytes := bytes + BigEndian.Encode(numWant.value, 4);
      bytes := bytes + BigEndian.Encode(port.value, 2);
      ReadRequestOfLayout(bytes, r);
    }

    method SetConnectionId(v: i64)
      modifies this
      ensures Fields() == old(Fields()).(connectionId := Some(v))
    {
      connectionId := Some(v);
    }

    method SetTransactionId(v: i32)
      modifies this
      ensures Fields() == old(Fields()).(transactionId := Some(v))
    {
      transactionId := Some(v);
    }

    method SetInfoHash(v: Bytes20)
      modifies this
      ensures Fields() == old(Fields()).(infoHash := Some(v))
    {
      infoHash := Some(v);
    }

    method SetDownloaded(v: i64)
      modifies this
      ensures Fields() == old(Fields()).(downloaded := Some(v))
    {
      downloaded := Some(v);
    }

    method SetUploaded(v: i64)
      modifies this
      ensures Fields() == old(Fields()).(uploaded := Some(v))
    {
      uploaded := Some(v);
    }

    method SetLeft(v: i64)
      modifies this
      ensures Fields() == old(Fields()).(left := Some(v))
    {
      left := Some(v);
    }

    method SetPort(v: i16)
      modifies this
      ensures Fields() == old(Fields()).(port := Some(v))
    {
      port := Some(v);
    }

    method SetKey(v: i32)
      modifies this
      ensures Fields() == old(Fields()).(key := Some(v))
    {
      key := Some(v);
    }
  }

  /** How a tracker is contacted, decided by the scheme of its URL. */
  datatype TrackerProtocol = UDP | HTTP

  /** A parsed URL: its scheme, lower-cased, and the text after the scheme's colon. */
  datatype Url = Url(scheme: string, rest: string)

  /** A network endpoint; the transport resolves it later, it is never set here. */
  datatype SocketAddr = SocketAddr(ip: seq<byte>, port: u16)

  datatype Tracker = Tracker(url: Url, protocol: TrackerProtocol, socketAdr: Option<SocketAddr>)

  predicate IsAsciiAlpha(c: char) {
    'a' <= c <= 'z' || 'A' <= c <= 'Z'
  }

  /** Characters allowed in a URL scheme after its first letter. */
  predicate IsSchemeChar(c: char) {
    IsAsciiAlpha(c) || '0' <= c <= '9' || c == '+' || c == '-' || c == '.'
  }

  function ToAsciiLower(c: char): char {
    if 'A' <= c <= 'Z' then (c as int + 32) as char else c
  }

  function AsciiLower(s: string): (r: string)
    ensures |r| == |s|
    ensures forall i :: 0 <= i < |s| ==> r[i] == ToAsciiLower(s[i])
  {
    seq(|s|, i requires 0 <= i < |s| => ToAsciiLower(s[i]))
  }

  /** Length of the longest prefix of s made of scheme characters. */
  function SchemeLength(s: string): (n: nat)
    ensures n <= |s|
    ensures forall i :: 0 <= i < n ==> IsSchemeChar(s[i])
    ensures n < |s| ==> !IsSchemeChar(s[n])
  {
    if s == [] || !IsSchemeChar(s[0]) then 0 else 1 + SchemeLength(s[1..])
  }

  /**
   * The scheme part of URL parsing: a letter, then scheme characters, then a
   * colon. The scheme is lower-cased; the rest of the text is kept as it is.
   */
  function ParseUrl(s: string): (u: Option<Url>)
    ensures u.Some? <==> 0 < SchemeLength(s) < |s| && IsAsciiAlpha(s[0]) && s[SchemeLength(s)] == ':'
    ensures u.Some? ==>
      var n := |u.value.scheme|;
      && 0 < n < |s| && s[n] == ':' && IsAsciiAlpha(s[0])
      && (forall i :: 0 <= i < n ==> IsSchemeChar(s[i]))
      && u.value.scheme == AsciiLower(s[..n])
      && u.value.rest == s[n + 1..]
  {
    var n := SchemeLength(s);
    if 0 < n < |s| && IsAsciiAlpha(s[0]) && s[n] == ':' then Some(Url(AsciiLower(s[..n]), s[n + 1..]))
    else None
  }

  /**
   * A tracker for a URL: UDP exactly when the parsed scheme is "udp", HTTP for
   * every other scheme, and no resolved endpoint yet. A URL that does not
   * parse makes the source panic, hence the precondition.
   */
  function NewTracker(url: string): (t: Tracker)
    requires ParseUrl(url).Some?
    ensures t.url == ParseUrl(url).value
    ensures t.protocol == UDP <==> t.url.scheme == "udp"
    ensures t.socketAdr == None
  {
    var u := ParseUrl(url).value;
    Tracker(u, if u.scheme == "udp" then UDP else HTTP, None)
  }

  /** A URL is classified UDP exactly when its text starts with "udp:" in any letter case. */
  lemma UdpIffUdpPrefix(url: string)
    requires ParseUrl(url).Some?
    ensures NewTracker(url).protocol == UDP <==> |url| > 3 && AsciiLower(url[..3]) == "udp" && url[3] == ':'
  {
  }

  /**
   * The tracker list of a torrent: the primary URL first, then the first URL
   * of each backup tier, in tier order.
   */
  method GetTrackers(announce: string, announceList: seq<seq<string>>) returns (trackers: seq<Tracker>)
    requires ParseUrl(announce).Some?
    requires forall i :: 0 <= i < |announceList| ==> |announceList[i]| > 0 && ParseUrl(announceList[i][0]).Some?
    ensures |trackers| == 1 + |announceList|
    ensures trackers[0] == NewTracker(announce)
    ensures forall i :: 0 <= i < |announceList| ==> trackers[i + 1] == NewTracker(announceList[i][0])
  {
    trackers := [];
    trackers := trackers + [NewTracker(announce)];
    for i := 0 to |announceList|
      invariant |trackers| == 1 + i
      invariant trackers[0] == NewTracker(announce)
      invariant forall k :: 0 <= k < i ==> trackers[k + 1] == NewTracker(announceList[k][0])
    {
      trackers := trackers + [NewTracker(announceList[i][0])];
    }
  }

  const EXAMPLE_UDP_URL: string := "udp://a.example:80/announce"
  const EXAMPLE_HTTP_URL: string := "http://b.example/ann"

  lemma ExampleUdpUrlClassified()
    ensures ParseUrl(EXAMPLE_UDP_URL).Some? && NewTracker(EXAMPLE_UDP_URL).protocol == UDP
  {
    SchemeEndsAt(EXAMPLE_UDP_URL, 3);
    assert AsciiLower(EXAMPLE_UDP_URL[..3]) == "udp";
    UdpIffUdpPrefix(EXAMPLE_UDP_URL);
  }

  lemma ExampleHttpUrlClassified()
    ensures ParseUrl(EXAMPLE_HTTP_URL).Some? && NewTracker(EXAMPLE_HTTP_URL).protocol == HTTP
  {
    SchemeEndsAt(EXAMPLE_HTTP_URL, 4);
    assert EXAMPLE_HTTP_URL[3] != ':';
    UdpIffUdpPrefix(EXAMPLE_HTTP_URL);
  }

  /** The tracker list of a primary URL and two single-URL tiers. */
  method TwoTierTrackers(primary: string, first: string, second: string) returns (trackers: seq<Tracker>)
    requires ParseUrl(primary).Some? && ParseUrl(first).Some? && ParseUrl(second).Some?
    ensures trackers == [NewTracker(primary), NewTracker(first), NewTracker(second)]
  {
    var tiers := [[first], [second]];
    assert tiers[0][0] == first && tiers[1][0] == second;
    trackers := GetTrackers(primary, tiers);
  }

  /**
   * A primary UDP URL with one UDP tier and one HTTP tier gives three
   * trackers, UDP, UDP and HTTP, in that order.
   */
  method ExampleTrackers() returns (trackers: seq<Tracker>)
    ensures |trackers| == 3
    ensures trackers[0].protocol == UDP && trackers[1].protocol == UDP && trackers[2].protocol == HTTP
  {
    ExampleUdpUrlClassified();
    ExampleHttpUrlClassified();
    trackers := TwoTierTrackers(EXAMPLE_UDP_URL, EXAMPLE_UDP_URL, EXAMPLE_HTTP_URL);
  }

  /** The scheme ends at the first character that cannot belong to it, here a colon. */
  lemma SchemeEndsAt(s: string, k: nat)
    requires k < |s| && s[k] == ':'
    requires forall i :: 0 <= i < k ==> IsSchemeChar(s[i])
    ensures SchemeLength(s) == k
  {
  }
}
