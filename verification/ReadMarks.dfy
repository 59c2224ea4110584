/** Read marks: which conversation a mark names on the wire, and what a set of marks reads. */
module ReadMarks {
  import opened Wrappers
  import opened Rfc4648

  type ConversationId = string

  datatype Target = PeerDid(did: string) | GroupId(id: seq<Byte>)

  datatype ReadMark = ReadMark(target: Target, upTo: nat)

  function StripPrefix(s: string, prefix: string): Option<string> {
    if prefix <= s then Some(s[|prefix|..]) else None
  }

  /** The peer of a DM id of mine: what follows `dm-`, my DID and a dash, in that order. */
  function DmPeer(me: string, conv: ConversationId): Option<string> {
    match StripPrefix(conv, "dm-")
    case None => None
    case Some(rest) =>
      match StripPrefix(rest, me)
      case None => None
      case Some(tail) => StripPrefix(tail, "-")
  }

  function MarkFor(me: string, conv: ConversationId, upTo: nat): Option<ReadMark> {
    match DmPeer(me, conv)
    case Some(peer) => if peer == "" then None else Some(ReadMark(PeerDid(peer), upTo))
    case None =>
      match StripPrefix(conv, "group-")
      case None => None
      case Some(gid) =>
        match Decode(Base64Url, gid)
        case None => None
        case Some(id) => Some(ReadMark(GroupId(id), upTo))
  }

  predicate Mappable(me: string, conv: ConversationId) {
    MarkFor(me, conv, 0).Some?
  }

  /** The receiving side's mapping back to a local id. */
  function ConversationOf(me: string, target: Target): ConversationId {
    match target
    case PeerDid(did) => "dm-" + me + "-" + did
    case GroupId(id) => "group-" + Encode(Base64Url, id)
  }

  lemma StripIsJoin(s: string, prefix: string, rest: string)
    ensures StripPrefix(s, prefix) == Some(rest) <==> s == prefix + rest
  {
  }

  lemma PeerIsJoin(me: string, conv: ConversationId, peer: string)
    ensures DmPeer(me, conv) == Some(peer) <==> conv == ConversationOf(me, PeerDid(peer))
  {
    StripIsJoin(conv, "dm-", me + ("-" + peer));
    StripIsJoin(me + ("-" + peer), me, "-" + peer);
    StripIsJoin("-" + peer, "-", peer);
    assert "dm-" + me + "-" + peer == "dm-" + (me + ("-" + peer));
  }

  lemma GroupMarkIsJoin(me: string, conv: ConversationId, id: seq<Byte>, upTo: nat)
    ensures MarkFor(me, conv, upTo) == Some(ReadMark(GroupId(id), upTo)) <==> conv == ConversationOf(me, GroupId(id))
  {
    if conv == ConversationOf(me, GroupId(id)) {
      assert conv[0] == 'g';
      StripIsJoin(conv, "group-", Encode(Base64Url, id));
      EncodeThenDecode(Base64Url, id);
    } else if "group-" <= conv && Decode(Base64Url, conv[|"group-"|..]) == Some(id) {
      DecodeThenEncode(Base64Url, conv[|"group-"|..]);
      StripIsJoin(conv, "group-", Encode(Base64Url, id));
    }
  }

  /** The two mappings are inverse to each other: an id has a mark exactly when it is the receiver's
      id for that mark's target, with the one exception of an empty peer. */
  lemma MarkNamesItsConversation(me: string, conv: ConversationId, mark: ReadMark)
    ensures MarkFor(me, conv, mark.upTo) == Some(mark) <==>
            ConversationOf(me, mark.target) == conv && mark.target != PeerDid("")
    ensures ConversationOf(me, mark.target) ==
              match mark.target
              case PeerDid(did) => "dm-" + me + "-" + did
              case GroupId(id) => "group-" + Encode(Base64Url, id)
  {
    match mark.target
    case PeerDid(did) => PeerIsJoin(me, conv, did);
    case GroupId(id) => GroupMarkIsJoin(me, conv, id, mark.upTo);
  }

  // ---- The other device's history ----

  datatype Row = Row(conv: ConversationId, sentAt: int, read: bool)

  /** Some mark of the set reads `conv` at least up to time `t`. */
  predicate Carries(me: string, marks: set<ReadMark>, conv: ConversationId, t: int) {
    exists m :: m in marks && ConversationOf(me, m.target) == conv && t <= m.upTo
  }

  function ReadBy(me: string, marks: set<ReadMark>, row: Row): Row {
    row.(read := row.read || Carries(me, marks, row.conv, row.sentAt))
  }

  /** apply_sync_read: marks read everything sent at or below them in their conversation. */
  function ApplySyncRead(me: string, rows: seq<Row>, marks: set<ReadMark>): (after: seq<Row>)
    ensures |after| == |rows|
  {
    seq(|rows|, i requires 0 <= i < |rows| => ReadBy(me, marks, rows[i]))
  }

  lemma ApplyTwice(me: string, rows: seq<Row>, a: set<ReadMark>, b: set<ReadMark>)
    ensures ApplySyncRead(me, ApplySyncRead(me, rows, a), b) == ApplySyncRead(me, rows, a + b)
  {
    forall i | 0 <= i < |rows|
      ensures Carries(me, a + b, rows[i].conv, rows[i].sentAt) <==>
              Carries(me, a, rows[i].conv, rows[i].sentAt) || Carries(me, b, rows[i].conv, rows[i].sentAt)
    {
      CarriesUnion(me, a, b, rows[i].conv, rows[i].sentAt);
    }
  }

  lemma CarriesUnion(me: string, a: set<ReadMark>, b: set<ReadMark>, conv: ConversationId, t: int)
    ensures Carries(me, a + b, conv, t) <==> Carries(me, a, conv, t) || Carries(me, b, conv, t)
  {
  }

  // ---- A single mark, applied by its conversation id ----

  datatype Mark = Mark(conv: ConversationId, upTo: nat)

  predicate Covers(m: Mark, conv: ConversationId, t: int) {
    m.conv == conv && t <= m.upTo
  }

  predicate AnyCovers(ms: seq<Mark>, conv: ConversationId, t: int) {
    exists m :: m in ms && Covers(m, conv, t)
  }

  function ApplyMark(rows: seq<Row>, m: Mark): (after: seq<Row>)
    ensures |after| == |rows|
  {
    seq(|rows|, i requires 0 <= i < |rows| =>
      rows[i].(read := rows[i].read || Covers(m, rows[i].conv, rows[i].sentAt)))
  }

  function ApplyEach(rows: seq<Row>, ms: seq<Mark>): (after: seq<Row>)
    ensures |after| == |rows|
    decreases ms
  {
    if ms == [] then rows else ApplyEach(ApplyMark(rows, ms[0]), ms[1..])
  }

  /** One by one in any order: a row ends up read exactly when it was, or some mark covers it. */
  lemma {:induction false} ApplyEachReads(rows: seq<Row>, ms: seq<Mark>, i: nat)
    requires i < |rows|
    ensures ApplyEach(rows, ms)[i]
         == rows[i].(read := rows[i].read || AnyCovers(ms, rows[i].conv, rows[i].sentAt))
    decreases ms
  {
    if ms != [] {
      ApplyEachReads(ApplyMark(rows, ms[0]), ms[1..], i);
      assert ms == [ms[0]] + ms[1..];
    }
  }
}
