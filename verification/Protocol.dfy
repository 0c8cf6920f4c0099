/** The version-one command envelope and its validation. */
module Protocol {
  import opened Common

  const PROTOCOL_VERSION := "1"
  const ROOM_JOIN := "room.join"
  const ROOM_LEAVE := "room.leave"
  const ROOM_BROADCAST := "room.broadcast"
  const PRIVATE_SEND := "private.send"

  datatype ErrorCode =
    | InvalidJSON
    | InvalidMessage
    | UnsupportedVersion
    | UnknownMessageType
    | Unauthorized
    | RecipientOffline
    | RecipientOverloaded
    | RateLimitExceeded

  /** A raw JSON value and whether it decodes to an object. */
  datatype RawPayload = RawPayload(text: string, isObject: bool)

  datatype InboundMessage = InboundMessage(
    version: string,
    kind: string,
    requestID: string,
    roomID: string,
    recipientID: string,
    payload: RawPayload
  )

  const EMPTY_MESSAGE := InboundMessage("", "", "", "", "", RawPayload("", false))

  datatype ProtocolError = ProtocolError(code: ErrorCode, requestID: string)

  /** What the JSON decoder makes of a text frame: nothing usable, one object
      followed by more input, or exactly one object. */
  datatype Parse =
    | Undecodable
    | Trailing(first: InboundMessage)
    | Single(message: InboundMessage)

  datatype Frame = Binary | Text(parse: Parse)

  // ---------- Strings ----------

  predicate IsSpace(c: char) {
    var n := c as int;
    || 0x09 <= n <= 0x0D || n == 0x20 || n == 0x85 || n == 0xA0 || n == 0x1680
    || 0x2000 <= n <= 0x200A || n == 0x2028 || n == 0x2029 || n == 0x202F
    || n == 0x205F || n == 0x3000
  }

  /** The white space of the Go function unicode.IsSpace. */
  lemma WhiteSpace(c: char)
    ensures IsSpace(c) <==>
            || c in "\t\n\U{000B}\U{000C}\r \U{0085}\U{00A0}\U{1680}\U{2000}\U{2001}\U{2002}\U{2003}\U{2004}\U{2005}"
            || c in "\U{2006}\U{2007}\U{2008}\U{2009}\U{200A}\U{2028}\U{2029}\U{202F}\U{205F}\U{3000}"
  {}

  function TrimLeft(s: string): string {
    if s != "" && IsSpace(s[0]) then TrimLeft(s[1..]) else s
  }

  function TrimRight(s: string): string {
    if s != "" && IsSpace(s[|s| - 1]) then TrimRight(s[..|s| - 1]) else s
  }

  function Trim(s: string): string {
    TrimRight(TrimLeft(s))
  }

  /** The length limits of the protocol count UTF-8 bytes. */
  function Utf8Length(s: string): nat {
    if s == "" then 0
    else
      var n := s[0] as int;
      (if n < 0x80 then 1 else if n < 0x800 then 2 else if n < 0x10000 then 3 else 4) + Utf8Length(s[1..])
  }

  /** How many characters of `s` have a code point of at least `n`. */
  function AtLeast(s: string, n: int): nat {
    if s == "" then 0 else (if s[0] as int >= n then 1 else 0) + AtLeast(s[1..], n)
  }

  /** Every character takes one byte, and one more for each of the three
      thresholds of UTF-8 that its code point reaches. */
  lemma {:induction false} BytesAndCharacters(s: string)
    ensures Utf8Length(s) == |s| + AtLeast(s, 0x80) + AtLeast(s, 0x800) + AtLeast(s, 0x10000)
    ensures AtLeast(s, 0x80) == 0 <==> forall i :: 0 <= i < |s| ==> s[i] as int < 0x80
    ensures AtLeast(s, 0x10000) <= AtLeast(s, 0x800) <= AtLeast(s, 0x80) <= |s|
  {
    if s != "" {
      BytesAndCharacters(s[1..]);
      assert forall i :: 1 <= i < |s| ==> s[i] == s[1..][i - 1];
      assert (forall i :: 0 <= i < |s| ==> s[i] as int < 0x80) <==>
          s[0] as int < 0x80 && forall i :: 0 <= i < |s[1..]| ==> s[1..][i] as int < 0x80;
    }
  }

  lemma {:induction false} RepeatedCharacter(c: char, n: nat)
    ensures Utf8Length(seq(n, _ => c)) == n * Utf8Length([c])
  {
    if n > 0 {
      RepeatedCharacter(c, n - 1);
      var s := seq(n, _ => c);
      assert s[0] == c && s[1..] == seq(n - 1, _ => c);
      assert [c][1..] == "";
      assert Utf8Length(s) == Utf8Length([c]) + Utf8Length(s[1..]);
    }
  }

  predicate Bare(s: string) {
    s == "" || (!IsSpace(s[0]) && !IsSpace(s[|s| - 1]))
  }

  predicate AllSpace(s: string) {
    forall i :: 0 <= i < |s| ==> IsSpace(s[i])
  }

  lemma {:induction false} TrimLeftSplit(s: string) returns (pre: string)
    ensures AllSpace(pre) && s == pre + TrimLeft(s)
    ensures TrimLeft(s) == "" || !IsSpace(TrimLeft(s)[0])
  {
    if s != "" && IsSpace(s[0]) {
      var rest := TrimLeftSplit(s[1..]);
      pre := [s[0]] + rest;
      assert s == [s[0]] + s[1..];
    } else {
      pre := "";
    }
  }

  lemma {:induction false} TrimRightSplit(s: string) returns (post: string)
    ensures AllSpace(post) && s == TrimRight(s) + post
    ensures TrimRight(s) == "" || !IsSpace(TrimRight(s)[|TrimRight(s)| - 1])
  {
    if s != "" && IsSpace(s[|s| - 1]) {
      var rest := TrimRightSplit(s[..|s| - 1]);
      post := rest + [s[|s| - 1]];
      assert s == s[..|s| - 1] + [s[|s| - 1]];
    } else {
      post := "";
    }
  }

  /** Trim removes white space at both ends, all of it, and nothing else. */
  lemma TrimSplits(s: string) returns (pre: string, post: string)
    ensures s == pre + Trim(s) + post
    ensures AllSpace(pre) && AllSpace(post) && Bare(Trim(s))
  {
    pre := TrimLeftSplit(s);
    post := TrimRightSplit(TrimLeft(s));
    assert s == pre + (Trim(s) + post);
  }

  lemma TrimIdempotent(s: string)
    ensures Trim(Trim(s)) == Trim(s)
  {
    var _, _ := TrimSplits(s);
  }

  // ---------- Validation ----------

  predicate ValidPayload(p: RawPayload) {
    p.text != "" && p.isObject
  }

  predicate RoomCommand(kind: string) {
    kind == ROOM_JOIN || kind == ROOM_LEAVE || kind == ROOM_BROADCAST
  }

  function Validate(m: InboundMessage): Option<ProtocolError> {
    var id := Trim(m.requestID);
    if Trim(m.version) != PROTOCOL_VERSION then Some(ProtocolError(UnsupportedVersion, id))
    else if id == "" then Some(ProtocolError(InvalidMessage, ""))
    else if Utf8Length(id) > 128 then Some(ProtocolError(InvalidMessage, id))
    else if RoomCommand(m.kind) && Trim(m.roomID) == "" then Some(ProtocolError(InvalidMessage, id))
    else if m.kind == PRIVATE_SEND && Trim(m.recipientID) == "" then Some(ProtocolError(InvalidMessage, id))
    else if (m.kind == ROOM_BROADCAST || m.kind == PRIVATE_SEND) && !ValidPayload(m.payload) then
      Some(ProtocolError(InvalidMessage, id))
    else if !RoomCommand(m.kind) && m.kind != PRIVATE_SEND then Some(ProtocolError(UnknownMessageType, id))
    else if Utf8Length(m.roomID) > 256 || Utf8Length(m.recipientID) > 256 then Some(ProtocolError(InvalidMessage, id))
    else None
  }

  function DecodeInbound(p: Parse): (InboundMessage, Option<ProtocolError>) {
    match p
    case Undecodable => (EMPTY_MESSAGE, Some(ProtocolError(InvalidJSON, "")))
    case Trailing(first) => (EMPTY_MESSAGE, Some(ProtocolError(InvalidJSON, first.requestID)))
    case Single(m) =>
      match Validate(m)
      case Some(e) => (EMPTY_MESSAGE, Some(e))
      case None => (m, None)
  }

  /** The request ID that the frame itself carried; empty if none was decoded. */
  function SentID(f: Frame): string {
    match f
    case Binary => ""
    case Text(Undecodable) => ""
    case Text(Trailing(m)) => m.requestID
    case Text(Single(m)) => m.requestID
  }

  /** Whatever the decoder answers, the ID it reports is the one the peer sent,
      up to surrounding white space. */
  lemma DecodeKeepsRequestID(p: Parse)
    ensures var (m, e) := DecodeInbound(p);
            Trim(if e.None? then m.requestID else e.value.requestID) == Trim(SentID(Text(p)))
  {
    match p
    case Undecodable =>
    case Trailing(_) =>
    case Single(m) => TrimIdempotent(m.requestID);
  }

  predicate Supported(m: InboundMessage) {
    Trim(m.version) == PROTOCOL_VERSION
  }

  predicate Identified(m: InboundMessage) {
    1 <= Utf8Length(Trim(m.requestID)) <= 128
  }

  predicate Known(kind: string) {
    RoomCommand(kind) || kind == PRIVATE_SEND
  }

  lemma KnownCommands(kind: string)
    ensures RoomCommand(kind) <==> kind in {"room.join", "room.leave", "room.broadcast"}
    ensures Known(kind) <==> RoomCommand(kind) || kind == "private.send"
  {}

  /** Names its target and, if it has a body, a proper one. */
  predicate Addressable(m: InboundMessage) {
    && ((RoomCommand(m.kind) && Trim(m.roomID) != "") || (m.kind == PRIVATE_SEND && Trim(m.recipientID) != ""))
    && (m.kind == ROOM_BROADCAST || m.kind == PRIVATE_SEND ==> m.payload.text != "" && m.payload.isObject)
  }

  /** The routing identifiers, of which an unused one counts as well. */
  predicate Routable(m: InboundMessage) {
    Utf8Length(m.roomID) <= 256 && Utf8Length(m.recipientID) <= 256
  }

  /** Each refusal names the first rule that the frame breaks. */
  lemma RefusalNamesFirstFault(p: Parse)
    ensures var e := DecodeInbound(p).1;
            && (e.Some? && e.value.code == InvalidJSON <==> !p.Single?)
            && (e.Some? && e.value.code == UnsupportedVersion <==> p.Single? && !Supported(p.message))
            && (e.Some? && e.value.code == UnknownMessageType <==>
                  p.Single? && Supported(p.message) && Identified(p.message) && !Known(p.message.kind))
            && (e.Some? && e.value.code == InvalidMessage <==>
                  && p.Single? && Supported(p.message)
                  && (|| !Identified(p.message)
                      || (Known(p.message.kind) && !(Addressable(p.message) && Routable(p.message)))))
            && (e.Some? ==> e.value.code in {InvalidJSON, InvalidMessage, UnsupportedVersion, UnknownMessageType})
  {
    if p.Single? {
      var id := Trim(p.message.requestID);
      assert id == "" <==> Utf8Length(id) == 0;
    }
  }

  /** Any command that reaches the dispatcher is one of the four kinds, names
      its target, and has an ID of 1 to 128 bytes once trimmed. */
  lemma DecodedIsWellFormed(p: Parse)
    ensures var (m, e) := DecodeInbound(p);
            e.None? <==>
              && p.Single?
              && Supported(p.message)
              && Identified(p.message)
              && Addressable(p.message)
              && Routable(p.message)
  {
    if p.Single? {
      var id := Trim(p.message.requestID);
      assert id == "" <==> Utf8Length(id) == 0;
    }
  }

  // ---------- The length limits speak of characters and count bytes ----------

  /** The limits as their error messages put them, in characters. */
  predicate WithinCharacterLimits(m: InboundMessage) {
    |Trim(m.requestID)| <= 128 && |m.roomID| <= 256 && |m.recipientID| <= 256
  }

  /** Everything that a command needs apart from the length limits. */
  predicate ProperButForLengths(m: InboundMessage) {
    Supported(m) && Trim(m.requestID) != "" && Addressable(m)
  }

  /** How many bytes the characters of `s` take beyond one each. */
  function ExtraBytes(s: string): nat {
    AtLeast(s, 0x80) + AtLeast(s, 0x800) + AtLeast(s, 0x10000)
  }

  /** An otherwise proper command is refused although it is within the limits of
      its error messages exactly if the extra bytes of some identifier exceed
      what its characters leave of the limit, and never for ASCII identifiers;
      no command beyond the limits passes. */
  lemma LimitsCountBytes(m: InboundMessage)
    requires ProperButForLengths(m)
    ensures Validate(m).None? ==> WithinCharacterLimits(m)
    ensures WithinCharacterLimits(m) && Validate(m).Some? <==>
              && WithinCharacterLimits(m)
              && (|| ExtraBytes(Trim(m.requestID)) > 128 - |Trim(m.requestID)|
                  || ExtraBytes(m.roomID) > 256 - |m.roomID|
                  || ExtraBytes(m.recipientID) > 256 - |m.recipientID|)
    ensures ExtraBytes(Trim(m.requestID)) == ExtraBytes(m.roomID) == ExtraBytes(m.recipientID) == 0 ==>
              (Validate(m).None? <==> WithinCharacterLimits(m))
  {
    BytesAndCharacters(Trim(m.requestID));
    BytesAndCharacters(m.roomID);
    BytesAndCharacters(m.recipientID);
  }

  /** A request ID of 65 accented letters takes 130 bytes and is refused. */
  lemma ShortIdIsRefused() returns (m: InboundMessage)
    ensures ProperButForLengths(m) && WithinCharacterLimits(m)
    ensures Validate(m) == Some(ProtocolError(InvalidMessage, m.requestID))
  {
    var id := seq(65, _ => '\U{00E9}');
    m := InboundMessage("1", ROOM_JOIN, id, "r", "", RawPayload("", false));
    RepeatedCharacter('\U{00E9}', 65);
    assert Utf8Length(['\U{00E9}']) == 2 by {
      assert ['\U{00E9}'][1..] == "";
    }
    assert TrimLeft(id) == id && TrimRight(id) == id;
    assert TrimLeft("r") == "r" && TrimRight("r") == "r";
    assert TrimLeft("1") == "1" && TrimRight("1") == "1";
  }
}
